/**
 * The texts the analyzers put into issues. A text is kept symbolic: fixed phrases are
 * named by a `Key` and pieces computed at run time (counts, lengths, timings, values
 * taken from a decoded reply) are kept as values; `Render` spells out the final string.
 */
module Messages {
  import opened Text
  import opened Json

  /** The fixed phrases of the rule-based analyzers, rendered by `KeyText`. */
  datatype Key =
    // analyzers/technical.py
    | PageUnreachable | CannotFetchPage | HttpStatusPrefix | HttpStatusDesc
    | SslMissing | SslDesc | SslFix
    | SlowServerPrefix | Ms | TtfbDesc | TtfbFix
    | HeadersMissingPrefix | HeadersMissingSuffix | MissingPrefix | HeadersFix
    // analyzers/onpage.py
    | TitleOutOfRange | LengthPrefix | CharsOptimal | Dash | Shorten | Lengthen | TitleTo
    | CharsSuffix | TitleDrastic | CharsDrastic | TitleRewrite
    | NoTitle | NoTitleDesc | NoTitleFix
    | MetaOutOfRange | OptimalInfix | MetaFix | NoMeta | NoMetaDesc | NoMetaFix
    | NoH1 | NoH1Desc | NoH1Fix | ManyH1Prefix | CloseParen | ManyH1Desc | ManyH1Fix
    | ImagesNoAlt | Of | ImagesNoAltDesc | AltFix
    | OgIncomplete | OgMissingPrefix | OgMissingSuffix | OgFix
    | FewLinks | FewLinksPrefix | FewLinksSuffix | FewLinksFix
    // analyzers/indexing.py
    | RobotsBlocks | RobotsBlocksDesc | RobotsBlocksFix
    | RobotsNoSitemap | RobotsNoSitemapDesc | RobotsNoSitemapFix
    | NoRobots | NoRobotsDesc | NoRobotsFix
    | SitemapTooBig | SitemapTooBigSuffix | SitemapTooBigFix
    | SitemapInvalid | SitemapInvalidDesc | SitemapInvalidFix
    | NoSitemap | NoSitemapDesc | NoSitemapFix
    | NoCanonical | NoCanonicalDesc | NoCanonicalFix
    | Noindex | NoindexDesc | NoindexFix
    | NoSchema | NoSchemaDesc | NoSchemaFix
    // analyzers/content.py
    | TooLittle | Little | ContentInfix | WordsSuffix | ThinDesc | ThinFix
    | LowRatioPrefix | PercentSign | LowRatioDesc | LowRatioFix
    | HardText | ReadabilityPrefix | ReadabilitySuffix | HardTextFix
    | StuffingPrefix | QuoteOpenParen | PercentCloseParen | StuffingDesc | StuffingFix
    | LongParagraphsSuffix | LongParagraphsDesc | LongParagraphsFix
    // analyzers/pagespeed.py
    | SlowLcpPrefix | SecondsMobile | LcpDesc | LcpFix
    | ClsPrefix | MobileSuffix | ClsDesc | ClsFix
    | SlowFidPrefix | MsMobile | FidDesc | FidFix
    | PsiFailed | ErrorPrefix | PsiFix
    // analyzers/ai_content.py
    | AiPrefix | ImpactInfix | TimeInfix | QuickWinPrefix | WhyPrefix | ExpectedInfix
    // analyzers/ai_content_old.py
    | IntentMismatchPrefix | IntentFix | LowEeatPrefix | ScoreOutOf100Paren | FoundSignals
    | EeatFix | StuffingDetected | NaturalnessPrefix | OutOf100 | StuffingRewrite
    // analyzers/ai_action_plan.py (display)
    | PlanErrorPrefix | RulerBreak | Ruler | PlanTitle
    | StrategyHeading | FocusPrefix | TimelinePrefix | DifficultyPrefix
    | QuickWinsHeading | WinIndent | DotSpace | WinTimePrefix | WinImpactPrefix
    | RoadmapOpen | Days30 | Days60 | Days90 | RoadmapClose
    | TaskBullet | PriorityInfix | OutOf10Paren | TaskImpactPrefix
    | ProgressHeading | CurrentPrefix | After30Prefix | After60Prefix | After90Prefix

  /**
   * A message: a fixed phrase, a string, an integer, a decimal with a fixed number of
   * places (`f'{x:.Nf}'`), a decoded JSON value as `str()` shows it, or a concatenation.
   */
  datatype Msg =
    | Fixed(key: Key)
    | Str(s: string)
    | Int(i: int)
    | Dec(x: real, places: nat)
    | Val(v: Json)
    | Cat(parts: seq<Msg>)

  function Render(m: Msg): string
    decreases m
  {
    match m
    case Fixed(k) => KeyText(k)
    case Str(s) => s
    case Int(i) => IntToString(i)
    case Dec(x, places) => FormatFixed(x, places)
    case Val(v) => StrOf(v)
    case Cat(parts) => RenderAll(parts)
  }

  function RenderAll(parts: seq<Msg>): string
    decreases parts
  {
    if |parts| == 0 then ""
    else
      assert parts[0] < Cat(parts);
      Render(parts[0]) + RenderAll(parts[1..])
  }

  function KeyText(k: Key): string {
    match k
    case PageUnreachable => "Strona niedostępna"
    case CannotFetchPage => "Nie można pobrać strony"
    case HttpStatusPrefix => "Status HTTP: "
    case HttpStatusDesc => "Strona nie jest dostępna lub zwraca błąd"
    case SslMissing => "Brak certyfikatu SSL"
    case SslDesc => "Strona nie używa HTTPS - krytyczne dla SEO i bezpieczeństwa"
    case SslFix => "Zainstaluj certyfikat SSL (darmowy: Let's Encrypt) i przekieruj HTTP→HTTPS"
    case SlowServerPrefix => "Wolny czas odpowiedzi serwera: "
    case Ms => "ms"
    case TtfbDesc => "TTFB powinien być <600ms. Wpływa na user experience."
    case TtfbFix => "Optymalizuj serwer, rozważ CDN, włącz caching"
    case HeadersMissingPrefix => "Brakuje "
    case HeadersMissingSuffix => " security headers"
    case MissingPrefix => "Brak: "
    case HeadersFix => "Dodaj security headers w konfiguracji serwera"

    case TitleOutOfRange => "Title tag poza optymalną długością"
    case LengthPrefix => "Długość: "
    case CharsOptimal => " znaków. Optimal: "
    case Dash => "-"
    case Shorten => "Skróć"
    case Lengthen => "Wydłuż"
    case TitleTo => " title do "
    case CharsSuffix => " znaków"
    case TitleDrastic => "Title tag zbyt krótki/długi"
    case CharsDrastic => " znaków. Drastycznie poza normą."
    case TitleRewrite => "Przepisz title tag do długości "
    case NoTitle => "Brak title tag"
    case NoTitleDesc => "Title tag jest fundamentem SEO - musi istnieć na każdej stronie"
    case NoTitleFix => "Dodaj <title>Twój Tytuł</title> w <head>"
    case MetaOutOfRange => "Meta description poza optymalną długością"
    case OptimalInfix => ". Optimal: "
    case MetaFix => "Dostosuj długość meta description i dodaj CTA"
    case NoMeta => "Brak meta description"
    case NoMetaDesc => "Meta description wpływa na CTR w wynikach wyszukiwania"
    case NoMetaFix => "Dodaj <meta name=\"description\" content=\"...\">"
    case NoH1 => "Brak nagłówka H1"
    case NoH1Desc => "H1 jest kluczowy dla struktury i SEO"
    case NoH1Fix => "Dodaj jeden nagłówek H1 z głównym tematem strony"
    case ManyH1Prefix => "Więcej niż jeden H1 ("
    case CloseParen => ")"
    case ManyH1Desc => "Powinna być tylko jedna H1 na stronie"
    case ManyH1Fix => "Zostaw jedną H1, resztę zamień na H2"
    case ImagesNoAlt => " obrazów bez alt"
    case Of => " z "
    case ImagesNoAltDesc => " obrazów nie ma alt tekstu"
    case AltFix => "Dodaj opisowe alt teksty do wszystkich obrazów"
    case OgIncomplete => "Niekompletne Open Graph tags"
    case OgMissingPrefix => "Brak "
    case OgMissingSuffix => " podstawowych OG tagów dla social media"
    case OgFix => "Dodaj og:title, og:description, og:image, og:type"
    case FewLinks => "Mało linków wewnętrznych"
    case FewLinksPrefix => "Tylko "
    case FewLinksSuffix => " linków wewnętrznych"
    case FewLinksFix => "Dodaj więcej linków do innych podstron (10-30 optimal)"

    case RobotsBlocks => "Robots.txt blokuje całą stronę"
    case RobotsBlocksDesc => "User-agent: * + Disallow: / blokuje indeksowanie"
    case RobotsBlocksFix => "NATYCHMIAST usuń lub popraw robots.txt!"
    case RobotsNoSitemap => "Robots.txt nie wskazuje sitemap"
    case RobotsNoSitemapDesc => "Brak linku do sitemap.xml w robots.txt"
    case RobotsNoSitemapFix => "Dodaj linię: Sitemap: https://domain.com/sitemap.xml"
    case NoRobots => "Brak robots.txt"
    case NoRobotsDesc => "Warto utworzyć robots.txt dla kontroli crawlingu"
    case NoRobotsFix => "Utwórz podstawowy robots.txt ze wskazaniem sitemap"
    case SitemapTooBig => "Sitemap zbyt duża"
    case SitemapTooBigSuffix => " URLs (max 50,000)"
    case SitemapTooBigFix => "Podziel sitemap na mniejsze pliki (sitemap index)"
    case SitemapInvalid => "Sitemap niepoprawny"
    case SitemapInvalidDesc => "Sitemap istnieje ale ma błędy składni XML"
    case SitemapInvalidFix => "Napraw składnię XML w sitemap.xml"
    case NoSitemap => "Brak sitemap.xml"
    case NoSitemapDesc => "Sitemap pomaga Google crawlować stronę"
    case NoSitemapFix => "Wygeneruj i opublikuj sitemap.xml"
    case NoCanonical => "Brak canonical tag"
    case NoCanonicalDesc => "Canonical zapobiega duplicate content"
    case NoCanonicalFix => "Dodaj <link rel=\"canonical\" href=\"URL\"> w <head>"
    case Noindex => "Strona ma meta noindex!"
    case NoindexDesc => "Meta robots=\"noindex\" blokuje indeksowanie"
    case NoindexFix => "NATYCHMIAST usuń noindex lub zmień na index"
    case NoSchema => "Brak Schema Markup"
    case NoSchemaDesc => "Schema.org daje rich snippets w Google"
    case NoSchemaFix => "Dodaj JSON-LD schema (Organization, Article, etc.)"

    case TooLittle => "Zbyt"
    case Little => "Mało"
    case ContentInfix => " treści: "
    case WordsSuffix => " słów"
    case ThinDesc => "Optimal: 600-1500+ słów. Thin content = słabe SEO."
    case ThinFix => "Rozbuduj content do minimum 600 słów wartościowej treści"
    case LowRatioPrefix => "Niski text-to-HTML ratio: "
    case PercentSign => "%"
    case LowRatioDesc => "Za dużo kodu, za mało tekstu (optimal >15%)"
    case LowRatioFix => "Dodaj więcej content lub uprość HTML"
    case HardText => "Tekst trudny w czytaniu"
    case ReadabilityPrefix => "Readability score: "
    case ReadabilitySuffix => " (im wyższy tym lepiej)"
    case HardTextFix => "Używaj krótszych zdań i prostszego języka"
    case StuffingPrefix => "Keyword stuffing: \""
    case QuoteOpenParen => "\" ("
    case PercentCloseParen => "%)"
    case StuffingDesc => "Zbyt wysoka gęstość słowa kluczowego (>5% = spam)"
    case StuffingFix => "Użyj synonimy i bardziej naturalnego języka"
    case LongParagraphsSuffix => " długich paragrafów (>150 słów)"
    case LongParagraphsDesc => "Długie paragrafy utrudniają czytanie"
    case LongParagraphsFix => "Podziel długie paragrafy na krótsze (50-100 słów)"

    case SlowLcpPrefix => "Wolne LCP: "
    case SecondsMobile => "s (mobile)"
    case LcpDesc => "Largest Contentful Paint powinien być <2.5s"
    case LcpFix => "Optymalizuj obrazy, użyj CDN, zminifikuj CSS/JS"
    case ClsPrefix => "Problemy z CLS: "
    case MobileSuffix => " (mobile)"
    case ClsDesc => "Cumulative Layout Shift powinien być <0.1"
    case ClsFix => "Dodaj wymiary do obrazów, zarezerwuj miejsce dla ads"
    case SlowFidPrefix => "Wolna interaktywność: "
    case MsMobile => "ms (mobile)"
    case FidDesc => "First Input Delay powinien być <100ms"
    case FidFix => "Zmniejsz JavaScript, użyj code splitting, defer scripts"
    case PsiFailed => "Nie udało się pobrać danych PageSpeed"
    case ErrorPrefix => "Error: "
    case PsiFix => "Sprawdź API key lub spróbuj ponownie"

    case AiPrefix => "AI: "
    case ImpactInfix => " Impact: "
    case TimeInfix => " (Time: "
    case QuickWinPrefix => "AI Quick Win: "
    case WhyPrefix => "Why: "
    case ExpectedInfix => " Expected: "

    case IntentMismatchPrefix => "AI: Search Intent Mismatch ("
    case IntentFix => "Align content structure and messaging with detected search intent"
    case LowEeatPrefix => "AI: Low E-E-A-T Signals (Score: "
    case ScoreOutOf100Paren => "/100)"
    case FoundSignals => "Found signals: "
    case EeatFix => "Add author bios, credentials, sources, and trust signals"
    case StuffingDetected => "AI: Keyword Stuffing Detected"
    case NaturalnessPrefix => "Naturalness score: "
    case OutOf100 => "/100"
    case StuffingRewrite => "Rewrite content to use keywords more naturally and add semantic variations"

    case PlanErrorPrefix => "[ERROR] Action Plan Error: "
    case RulerBreak => "\n" + Repeat("=", 60)
    case Ruler => Repeat("=", 60)
    case PlanTitle => "\U{1F3AF} AI-POWERED PERSONALIZED ACTION PLAN"
    case StrategyHeading => "\n\U{1F4CB} OVERALL STRATEGY:"
    case FocusPrefix => "  Focus: "
    case TimelinePrefix => "  Timeline: "
    case DifficultyPrefix => "  Difficulty: "
    case QuickWinsHeading => "\n\U{26A1} QUICK WINS (High Impact, Low Effort):"
    case WinIndent => "\n  "
    case DotSpace => ". "
    case WinTimePrefix => "     Time: "
    case WinImpactPrefix => "     Impact: "
    case RoadmapOpen => "\n\U{1F4C5} "
    case Days30 => "30 DAYS"
    case Days60 => "60 DAYS"
    case Days90 => "90 DAYS"
    case RoadmapClose => " ROADMAP:"
    case TaskBullet => "\n  \U{2022} "
    case PriorityInfix => " (Priority: "
    case OutOf10Paren => "/10)"
    case TaskImpactPrefix => "    Impact: "
    case ProgressHeading => "\n\U{1F4CA} ESTIMATED SCORE PROGRESSION:"
    case CurrentPrefix => "  Current: "
    case After30Prefix => "  After 30 days: "
    case After60Prefix => "  After 60 days: "
    case After90Prefix => "  After 90 days: "
  }
}
