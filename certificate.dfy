/**
 * The certificate renderer: a page with an optional background picture and logo, a centred
 * column of texts laid out by a running vertical cursor (preamble, team name on a rounded
 * backdrop, institution, participation line, competition title, host lines, date), and two
 * signature blocks at a fixed height.
 */
module CertificateRenderer {
  import opened Wrappers
  import opened Strings
  import opened Numbers
  import opened Graphics
  import opened ImageTools
  import opened Badges
  import opened Renderers

  /** The renderer's fields. A path is `None` until its property is set. */
  datatype CertSettings = CertSettings(
    font: string,
    textBackground: Color,
    originalFontSize: Int32,
    topPadding: real,
    signaturesPosition: real,
    backgroundHeight: real,
    logoHeight: real,
    nameHeight: real,
    institutionHeight: real,
    mainTextHeight: real,
    competitionTitleHeight: real,
    dateLocationHeight: real,
    staffNamesHeight: real,
    staffTitleHeight: real,
    majorSpacing: real,
    minorSpacing: real,
    certification: string,
    participation: string,
    advisorName: string,
    advisorTitle: string,
    presidentName: string,
    presidentTitle: string,
    competitionTitle: string,
    hostTitle: string,
    hostInstitution: string,
    dateLocation: string,
    pathToLogo: Option<string>,
    pathToBackground: Option<string>)

  const DEFAULT_SETTINGS: CertSettings := CertSettings(
    "SansSerif", Opaque(0xff7300), 200,
    0.07, 0.84, 0.75, 0.25, 0.10, 0.06, 0.04, 0.06, 0.035, 0.035, 0.025, 0.039, 0.010,
    "This is to certify that the robot",
    "participated in the",
    "Dr. Carl D. Latino",
    "Creator / Director",
    "Mr. Club President",
    "Mercury Robotics President",
    "8th Annual Mercury Remote Robot Challenge",
    "Hosted by the Electrical and Computer Engineering Department",
    "Oklahoma State University",
    "Month ##, 20## - Stillwater, Oklahoma",
    None, None)

  /** The properties the constructor declares, in order (the float defaults as `%.3f` prints them). */
  const CERTIFICATE_PROPERTIES: seq<Property> := TEXT_PROPERTIES + IMAGE_PROPERTIES + LAYOUT_PROPERTIES

  /** The texts of the certificate. */
  const TEXT_PROPERTIES: seq<Property> := STAFF_PROPERTIES + EVENT_PROPERTIES

  /** The font, the two preambles and the two signatories. */
  const STAFF_PROPERTIES: seq<Property> := [
    Property("font", STRING, "SansSerif", "name of font to use for text"),
    Property("certification", STRING, "This is to certify that the robot", "certification preamble"),
    Property("participation", STRING, "participated in the", "participation preamble"),
    Property("advisor-name", STRING, "Dr. Carl D. Latino", "name of competition advisor"),
    Property("advisor-title", STRING, "Creator / Director", "competition advisor's title"),
    Property("president-name", STRING, "Mr. Club President", "name of club president"),
    Property("president-title", STRING, "Mercury Robotics President", "title of club president")]

  /** The competition, its host and its date. */
  const EVENT_PROPERTIES: seq<Property> := [
    Property("competition-title", STRING, "8th Annual Mercury Remote Robot Challenge", "competition title"),
    Property("host-title", STRING, "Hosted by the Electrical and Computer Engineering Department", "certification sub-heading"),
    Property("host-institution", STRING, "Oklahoma State University", "host institution"),
    Property("date-and-location", STRING, "Month ##, 20## - Stillwater, Oklahoma", "competition date and location")]

  /** The pictures and the name backdrop; the two paths are declared without a default. */
  const IMAGE_PROPERTIES: seq<Property> := [
    Property("path-to-logo", STRING, "", "path to logo image file"),
    Property("path-to-background", STRING, "", "path to background image file"),
    Property("background-height", FLOAT, "0.750", "page background height in proportion to page height"),
    Property("text-background", STRING, "ff7300", "name text background (HTML hex)")]

  /** The proportions of the layout and the font size. */
  const LAYOUT_PROPERTIES: seq<Property> := HEIGHT_PROPERTIES + SPACING_PROPERTIES

  /** The top padding and the heights of the texts. */
  const HEIGHT_PROPERTIES: seq<Property> := [
    Property("padding-top", FLOAT, "0.070", "top padding in proportion to page height"),
    Property("main-text-height", FLOAT, "0.040", "main text height in proportion to page height"),
    Property("name-text-height", FLOAT, "0.100", "team name text height in proportion to page height"),
    Property("institution-height", FLOAT, "0.060", "team institution text height in proportion to page height"),
    Property("title-height", FLOAT, "0.060", "competition title height in proportion to page height"),
    Property("date-text-height", FLOAT, "0.035", "date text height in proportion to page height"),
    Property("staff-name-height", FLOAT, "0.035", "staff name text height in proportion to page height"),
    Property("staff-title-height", FLOAT, "0.025", "staff title text height in proportion to page height")]

  /** Where the signatures and the logo go, the spacings and the font size. */
  const SPACING_PROPERTIES: seq<Property> := [
    Property("signatures-position", FLOAT, "0.840", "positiion of staff signatures in proportion to page height from the top"),
    Property("logo-height", FLOAT, "0.250", "competition logo height in proportion to page height"),
    Property("major-spacing", FLOAT, "0.039", "vertical spacing between text in proportion to the page height"),
    Property("minor-spacing", FLOAT, "0.010", "minor vertical spacing between text in proportion to the page height"),
    Property("font-size-initial", INTEGER, "200", "initial full resolution font size")]

  /** The string properties whose value is taken as given. */
  datatype TextId =
    | FontName | Certification | ParticipationPreamble | AdvisorName | AdvisorTitle | PresidentName
    | PresidentTitle | CompetitionTitle | HostTitle | HostInstitution | DateLocation

  /** The float properties, parsed with `Float.parseFloat`. */
  datatype FloatId =
    | BackgroundHeight | TopPadding | MainTextHeight | NameHeight | InstitutionHeight
    | CompetitionTitleHeight | DateLocationHeight | StaffNamesHeight | StaffTitleHeight
    | SignaturesPosition | LogoHeight | MajorSpacing | MinorSpacing

  /** A case of the `switch` in `setProperty`. */
  datatype Key =
    | TextKey(text: TextId)
    | FloatKey(float: FloatId)
    | LogoPath
    | BackgroundPath
    | TextBackground
    | FontSizeInitial

  /** The `switch` on the property key. */
  function ParseKey(key: string): Option<Key> {
    match key
    case "font" => Some(TextKey(FontName))
    case "certification" => Some(TextKey(Certification))
    case "participation" => Some(TextKey(ParticipationPreamble))
    case "advisor-name" => Some(TextKey(AdvisorName))
    case "advisor-title" => Some(TextKey(AdvisorTitle))
    case "president-name" => Some(TextKey(PresidentName))
    case "president-title" => Some(TextKey(PresidentTitle))
    case "competition-title" => Some(TextKey(CompetitionTitle))
    case "host-title" => Some(TextKey(HostTitle))
    case "host-institution" => Some(TextKey(HostInstitution))
    case "date-and-location" => Some(TextKey(DateLocation))
    case "path-to-logo" => Some(LogoPath)
    case "path-to-background" => Some(BackgroundPath)
    case "background-height" => Some(FloatKey(BackgroundHeight))
    case "text-background" => Some(TextBackground)
    case "padding-top" => Some(FloatKey(TopPadding))
    case "main-text-height" => Some(FloatKey(MainTextHeight))
    case "name-text-height" => Some(FloatKey(NameHeight))
    case "institution-height" => Some(FloatKey(InstitutionHeight))
    case "title-height" => Some(FloatKey(CompetitionTitleHeight))
    case "date-text-height" => Some(FloatKey(DateLocationHeight))
    case "staff-name-height" => Some(FloatKey(StaffNamesHeight))
    case "staff-title-height" => Some(FloatKey(StaffTitleHeight))
    case "signatures-position" => Some(FloatKey(SignaturesPosition))
    case "logo-height" => Some(FloatKey(LogoHeight))
    case "major-spacing" => Some(FloatKey(MajorSpacing))
    case "minor-spacing" => Some(FloatKey(MinorSpacing))
    case "font-size-initial" => Some(FontSizeInitial)
    case _ => None
  }

  /** The property type a key is declared with. */
  function KindOf(k: Key): int {
    match k
    case FloatKey(_) => FLOAT
    case FontSizeInitial => INTEGER
    case _ => STRING
  }

  // ---------------------------------------------------------------------------
  // setProperty

  function TextOf(s: CertSettings, t: TextId): string {
    match t
    case FontName => s.font
    case Certification => s.certification
    case ParticipationPreamble => s.participation
    case AdvisorName => s.advisorName
    case AdvisorTitle => s.advisorTitle
    case PresidentName => s.presidentName
    case PresidentTitle => s.presidentTitle
    case CompetitionTitle => s.competitionTitle
    case HostTitle => s.hostTitle
    case HostInstitution => s.hostInstitution
    case DateLocation => s.dateLocation
  }

  function FloatOf(s: CertSettings, f: FloatId): real {
    match f
    case BackgroundHeight => s.backgroundHeight
    case TopPadding => s.topPadding
    case MainTextHeight => s.mainTextHeight
    case NameHeight => s.nameHeight
    case InstitutionHeight => s.institutionHeight
    case CompetitionTitleHeight => s.competitionTitleHeight
    case DateLocationHeight => s.dateLocationHeight
    case StaffNamesHeight => s.staffNamesHeight
    case StaffTitleHeight => s.staffTitleHeight
    case SignaturesPosition => s.signaturesPosition
    case LogoHeight => s.logoHeight
    case MajorSpacing => s.majorSpacing
    case MinorSpacing => s.minorSpacing
  }

  /** The settings with every text field blanked: what a text property must not change. */
  function WithoutTexts(s: CertSettings): CertSettings {
    s.(font := "", certification := "", participation := "", advisorName := "", advisorTitle := "",
       presidentName := "", presidentTitle := "", competitionTitle := "", hostTitle := "",
       hostInstitution := "", dateLocation := "")
  }

  /** The settings with every float field zeroed: what a float property must not change. */
  function WithoutFloats(s: CertSettings): CertSettings {
    s.(topPadding := 0.0, signaturesPosition := 0.0, backgroundHeight := 0.0, logoHeight := 0.0,
       nameHeight := 0.0, institutionHeight := 0.0, mainTextHeight := 0.0, competitionTitleHeight := 0.0,
       dateLocationHeight := 0.0, staffNamesHeight := 0.0, staffTitleHeight := 0.0, majorSpacing := 0.0,
       minorSpacing := 0.0)
  }

  /** Assigning a text field: that field takes the value, every other text field and everything else keeps its own. */
  function SetText(s: CertSettings, t: TextId, value: string): (r: CertSettings)
    ensures TextOf(r, t) == value
    ensures forall o :: o != t ==> TextOf(r, o) == TextOf(s, o)
    ensures WithoutTexts(r) == WithoutTexts(s)
  {
    match t
    case FontName => s.(font := value)
    case Certification => s.(certification := value)
    case ParticipationPreamble => s.(participation := value)
    case AdvisorName => s.(advisorName := value)
    case AdvisorTitle => s.(advisorTitle := value)
    case PresidentName => s.(presidentName := value)
    case PresidentTitle => s.(presidentTitle := value)
    case CompetitionTitle => s.(competitionTitle := value)
    case HostTitle => s.(hostTitle := value)
    case HostInstitution => s.(hostInstitution := value)
    case DateLocation => s.(dateLocation := value)
  }

  /** Assigning a float field: that field takes the value, every other float field and everything else keeps its own. */
  function SetFloat(s: CertSettings, f: FloatId, v: real): (r: CertSettings)
    ensures FloatOf(r, f) == v
    ensures forall o :: o != f ==> FloatOf(r, o) == FloatOf(s, o)
    ensures WithoutFloats(r) == WithoutFloats(s)
  {
    match f
    case BackgroundHeight => s.(backgroundHeight := v)
    case TopPadding => s.(topPadding := v)
    case MainTextHeight => s.(mainTextHeight := v)
    case NameHeight => s.(nameHeight := v)
    case InstitutionHeight => s.(institutionHeight := v)
    case CompetitionTitleHeight => s.(competitionTitleHeight := v)
    case DateLocationHeight => s.(dateLocationHeight := v)
    case StaffNamesHeight => s.(staffNamesHeight := v)
    case StaffTitleHeight => s.(staffTitleHeight := v)
    case SignaturesPosition => s.(signaturesPosition := v)
    case LogoHeight => s.(logoHeight := v)
    case MajorSpacing => s.(majorSpacing := v)
    case MinorSpacing => s.(minorSpacing := v)
  }

  /**
   * `setProperty`: texts and paths are taken as given, floats and the font size only when the
   * value parses (the exception skips the assignment), the name backdrop colour always (a
   * malformed code gives black), and an unknown key changes nothing.
   */
  function Set(s: CertSettings, key: string, value: string): (r: (CertSettings, SetOutcome))
    ensures r.1 == UnknownKey <==> ParseKey(key).None?
    ensures r.1 != Applied ==> r.0 == s
    ensures r.1 == Rejected <==>
      (ParseKey(key).Some? && ParseKey(key).value.FloatKey? && ParseFloat(value).None?) ||
      (ParseKey(key) == Some(FontSizeInitial) && ParseInt(value).None?)
    ensures ParseKey(key) == Some(TextBackground) ==> r.0 == s.(textBackground := ParseHexColor(value))
    ensures ParseKey(key) == Some(LogoPath) ==> r.0 == s.(pathToLogo := Some(value))
    ensures ParseKey(key) == Some(BackgroundPath) ==> r.0 == s.(pathToBackground := Some(value))
    ensures ParseKey(key) == Some(FontSizeInitial) && r.1 == Applied ==>
      r.0 == s.(originalFontSize := ParseInt(value).value)
    ensures forall t :: ParseKey(key) == Some(TextKey(t)) ==>
      (TextOf(r.0, t) == value && WithoutTexts(r.0) == WithoutTexts(s))
    ensures forall f :: ParseKey(key) == Some(FloatKey(f)) && r.1 == Applied ==>
      (Some(FloatOf(r.0, f)) == ParseFloat(value) && WithoutFloats(r.0) == WithoutFloats(s))
  {
    match ParseKey(key)
    case None => (s, UnknownKey)
    case Some(TextKey(t)) => (SetText(s, t, value), Applied)
    case Some(FloatKey(f)) =>
      (match ParseFloat(value)
       case None => (s, Rejected)
       case Some(v) => (SetFloat(s, f, v), Applied))
    case Some(LogoPath) => (s.(pathToLogo := Some(value)), Applied)
    case Some(BackgroundPath) => (s.(pathToBackground := Some(value)), Applied)
    case Some(TextBackground) => (s.(textBackground := ParseHexColor(value)), Applied)
    case Some(FontSizeInitial) =>
      (match ParseInt(value)
       case None => (s, Rejected)
       case Some(n) => (s.(originalFontSize := n), Applied))
  }

  /** A malformed backdrop colour replaces the old one by black rather than being rejected. */
  lemma MalformedBackdropIsBlack(s: CertSettings)
    ensures Set(s, "text-background", "#12345") == (s.(textBackground := BLACK), Applied)
  {
    assert ParseKey("text-background") == Some(TextBackground);
    assert StripHash("#12345") == "12345";
  }

  /** The `switch` handles a declared property's key, with a parser for its declared type. */
  predicate Handled(p: Property) {
    ParseKey(p.key).Some? && KindOf(ParseKey(p.key).value) == p.kind
  }

  lemma TextKeysHandled()
    ensures forall i :: 0 <= i < |TEXT_PROPERTIES| ==> Handled(TEXT_PROPERTIES[i])
  {
    var ps := TEXT_PROPERTIES;
    assert Handled(ps[0]) && Handled(ps[1]) && Handled(ps[2]) && Handled(ps[3]);
    assert Handled(ps[4]) && Handled(ps[5]) && Handled(ps[6]) && Handled(ps[7]);
    assert Handled(ps[8]) && Handled(ps[9]) && Handled(ps[10]);
  }

  lemma ImageKeysHandled()
    ensures forall i :: 0 <= i < |IMAGE_PROPERTIES| ==> Handled(IMAGE_PROPERTIES[i])
  {
    var ps := IMAGE_PROPERTIES;
    assert Handled(ps[0]) && Handled(ps[1]) && Handled(ps[2]) && Handled(ps[3]);
  }

  lemma LayoutKeysHandled()
    ensures forall i :: 0 <= i < |LAYOUT_PROPERTIES| ==> Handled(LAYOUT_PROPERTIES[i])
  {
    LayoutKeysHandledA();
    LayoutKeysHandledB();
    LayoutKeysHandledC();
    LayoutKeysHandledD();
  }

  lemma LayoutKeysHandledA()
    ensures forall i :: 0 <= i < 4 ==> Handled(LAYOUT_PROPERTIES[i])
  {
    var ps := LAYOUT_PROPERTIES;
    assert Handled(ps[0]) && Handled(ps[1]) && Handled(ps[2]) && Handled(ps[3]);
  }

  lemma LayoutKeysHandledB()
    ensures forall i :: 4 <= i < 8 ==> Handled(LAYOUT_PROPERTIES[i])
  {
    var ps := LAYOUT_PROPERTIES;
    assert Handled(ps[4]) && Handled(ps[5]) && Handled(ps[6]) && Handled(ps[7]);
  }

  lemma LayoutKeysHandledC()
    ensures forall i :: 8 <= i < 11 ==> Handled(LAYOUT_PROPERTIES[i])
  {
    var ps := LAYOUT_PROPERTIES;
    assert Handled(ps[8]) && Handled(ps[9]) && Handled(ps[10]);
  }

  lemma LayoutKeysHandledD()
    ensures forall i :: 11 <= i < 13 ==> Handled(LAYOUT_PROPERTIES[i])
  {
    var ps := LAYOUT_PROPERTIES;
    assert Handled(ps[11]) && Handled(ps[12]);
  }

  /**
   * The registry and the `switch` agree: every declared key is handled, with a parser for
   * its declared type (text as given, `Float.parseFloat` for FLOAT, `Integer.parseInt` for INTEGER).
   */
  /** Every key the `switch` accepts is declared, with the type it is parsed as. */
  lemma SwitchedKeysDeclared(key: string)
    requires ParseKey(key).Some?
    ensures exists i :: 0 <= i < |CERTIFICATE_PROPERTIES| &&
                        CERTIFICATE_PROPERTIES[i].key == key && CERTIFICATE_PROPERTIES[i].kind == KindOf(ParseKey(key).value)
  {
    match key
    case "font" => assert CERTIFICATE_PROPERTIES[0].key == key;
    case "certification" => assert CERTIFICATE_PROPERTIES[1].key == key;
    case "participation" => assert CERTIFICATE_PROPERTIES[2].key == key;
    case "advisor-name" => assert CERTIFICATE_PROPERTIES[3].key == key;
    case "advisor-title" => assert CERTIFICATE_PROPERTIES[4].key == key;
    case "president-name" => assert CERTIFICATE_PROPERTIES[5].key == key;
    case "president-title" => assert CERTIFICATE_PROPERTIES[6].key == key;
    case "competition-title" => assert CERTIFICATE_PROPERTIES[7].key == key;
    case "host-title" => assert CERTIFICATE_PROPERTIES[8].key == key;
    case "host-institution" => assert CERTIFICATE_PROPERTIES[9].key == key;
    case "date-and-location" => assert CERTIFICATE_PROPERTIES[10].key == key;
    case "path-to-logo" => assert CERTIFICATE_PROPERTIES[11].key == key;
    case "path-to-background" => assert CERTIFICATE_PROPERTIES[12].key == key;
    case "background-height" => assert CERTIFICATE_PROPERTIES[13].key == key;
    case "text-background" => assert CERTIFICATE_PROPERTIES[14].key == key;
    case "padding-top" => assert CERTIFICATE_PROPERTIES[15].key == key;
    case "main-text-height" => assert CERTIFICATE_PROPERTIES[16].key == key;
    case "name-text-height" => assert CERTIFICATE_PROPERTIES[17].key == key;
    case "institution-height" => assert CERTIFICATE_PROPERTIES[18].key == key;
    case "title-height" => assert CERTIFICATE_PROPERTIES[19].key == key;
    case "date-text-height" => assert CERTIFICATE_PROPERTIES[20].key == key;
    case "staff-name-height" => assert CERTIFICATE_PROPERTIES[21].key == key;
    case "staff-title-height" => assert CERTIFICATE_PROPERTIES[22].key == key;
    case "signatures-position" => assert CERTIFICATE_PROPERTIES[23].key == key;
    case "logo-height" => assert CERTIFICATE_PROPERTIES[24].key == key;
    case "major-spacing" => assert CERTIFICATE_PROPERTIES[25].key == key;
    case "minor-spacing" => assert CERTIFICATE_PROPERTIES[26].key == key;
    case "font-size-initial" => assert CERTIFICATE_PROPERTIES[27].key == key;
  }

  lemma DeclaredKeysHandled()
    ensures forall i :: 0 <= i < |CERTIFICATE_PROPERTIES| ==> Handled(CERTIFICATE_PROPERTIES[i])
  {
    TextKeysHandled();
    ImageKeysHandled();
    LayoutKeysHandled();
    var t, m := |TEXT_PROPERTIES|, |TEXT_PROPERTIES| + |IMAGE_PROPERTIES|;
    forall i | 0 <= i < |CERTIFICATE_PROPERTIES| ensures Handled(CERTIFICATE_PROPERTIES[i]) {
      if i < t {
        assert CERTIFICATE_PROPERTIES[i] == TEXT_PROPERTIES[i];
      } else if i < m {
        assert CERTIFICATE_PROPERTIES[i] == IMAGE_PROPERTIES[i - t];
      } else {
        assert CERTIFICATE_PROPERTIES[i] == LAYOUT_PROPERTIES[i - m];
      }
    }
  }

  // ---------------------------------------------------------------------------
  // The participation override

  const OVERRIDE_PREFIX: string := "text-participation::"

  /** What one extra data line says about the participation text: the part after the first `::` of its trimmed form, if that starts with the prefix. */
  function LineOverride(line: string): Option<string> {
    var t := Trim(line);
    if StartsWith(t, OVERRIDE_PREFIX) then
      var tokens := SplitOnce(t, "::");
      if |tokens| == 2 then Some(tokens[1]) else None
    else None
  }

  /** A text starting with the prefix splits at the end of the prefix: its first `::` is the prefix's own. */
  lemma PrefixSplit(t: string)
    requires StartsWith(t, OVERRIDE_PREFIX)
    ensures SplitOnce(t, "::") == [t[..18], t[20..]]
  {
    assert t[..20] == OVERRIDE_PREFIX;
    assert t[..18] == "text-participation";
    assert ':' !in t[..18];
    assert OccursAt(t, "::", 18) by { assert t[18..20] == OVERRIDE_PREFIX[18..20]; }
    forall k | 0 <= k < 18 ensures !OccursAt(t, "::", k) {
      assert t[k] == t[..18][k] && t[k] != ':';
      assert k + 2 <= |t| ==> t[k..k + 2][0] == t[k];
    }
    IndexOfFirst(t, "::", 0, 18);
  }

  /** An overriding line always splits in two, and its value is everything after the prefix (later `::` included). */
  lemma LineOverrideValue(line: string)
    ensures LineOverride(line).Some? <==> StartsWith(Trim(line), OVERRIDE_PREFIX)
    ensures LineOverride(line).Some? ==> LineOverride(line).value == Trim(line)[|OVERRIDE_PREFIX|..]
  {
    var t := Trim(line);
    if StartsWith(t, OVERRIDE_PREFIX) {
      PrefixSplit(t);
    }
  }

  /** The value a sequence of items leaves behind when each item may replace it: the last item that picks something wins. */
  function Latest<T>(items: seq<T>, initial: string, pick: T -> Option<string>): (r: string)
    ensures r == initial || exists i :: 0 <= i < |items| && pick(items[i]) == Some(r)
  {
    if items == [] then initial
    else
      match pick(items[|items| - 1])
      case Some(t) => t
      case None => Latest(items[..|items| - 1], initial, pick)
  }

  /** With no picking item the initial value stays; otherwise the last picking item's value wins. */
  lemma {:induction false} LatestLastWins<T>(items: seq<T>, initial: string, pick: T -> Option<string>)
    ensures (forall i :: 0 <= i < |items| ==> pick(items[i]).None?) ==> Latest(items, initial, pick) == initial
    ensures forall k | 0 <= k < |items| && pick(items[k]).Some? &&
      (forall j :: k < j < |items| ==> pick(items[j]).None?) ::
      Latest(items, initial, pick) == pick(items[k]).value
  {
    if items != [] {
      var n := |items| - 1;
      var init := items[..n];
      LatestLastWins(init, initial, pick);
      match pick(items[n])
      case Some(t) =>
        assert Latest(items, initial, pick) == t;
      case None =>
        assert Latest(items, initial, pick) == Latest(init, initial, pick);
        forall k | 0 <= k < n && pick(items[k]).Some? && (forall j :: k < j < |items| ==> pick(items[j]).None?)
          ensures Latest(items, initial, pick) == pick(items[k]).value
        {
          assert init[k] == items[k];
          assert forall j :: k < j < n ==> init[j] == items[j];
        }
        assert (forall i :: 0 <= i < |items| ==> pick(items[i]).None?) ==> (forall i :: 0 <= i < n ==> pick(init[i]).None?);
    }
  }

  /** One more item: it replaces the value if it picks one. */
  lemma LatestSnoc<T>(items: seq<T>, x: T, initial: string, pick: T -> Option<string>)
    ensures Latest(items + [x], initial, pick) == (match pick(x) case Some(t) => t case None => Latest(items, initial, pick))
  {
    assert (items + [x])[..|items|] == items;
  }

  /** The participation text after the badge's extra data lines, in order. */
  function Participation(lines: seq<string>, configured: string): (r: string)
    ensures r == configured || exists i :: 0 <= i < |lines| && LineOverride(lines[i]) == Some(r)
  {
    Latest(lines, configured, LineOverride)
  }

  /** The loop over the badge's extra data that picks the participation text. */
  method ParticipationText(extraData: seq<string>, configured: string) returns (text: string)
    ensures text == Participation(extraData, configured)
  {
    text := configured;
    var i := 0;
    while i < |extraData|
      invariant 0 <= i <= |extraData|
      invariant text == Latest(extraData[..i], configured, LineOverride)
    {
      var line := extraData[i];
      match LineOverride(line) {
        case Some(t) => text := t;
        case None =>
      }
      assert extraData[..i + 1] == extraData[..i] + [line];
      LatestSnoc(extraData[..i], line, configured, LineOverride);
      i := i + 1;
    }
    assert extraData[..i] == extraData;
  }

  /** The last line of the badge's extra data that overrides the participation text wins; with none, the configured text stays. */
  lemma ParticipationLastWins(lines: seq<string>, configured: string)
    ensures (forall i :: 0 <= i < |lines| ==> LineOverride(lines[i]).None?) ==>
      Participation(lines, configured) == configured
    ensures forall k | 0 <= k < |lines| && LineOverride(lines[k]).Some? &&
      (forall j :: k < j < |lines| ==> LineOverride(lines[j]).None?) ::
      Participation(lines, configured) == Trim(lines[k])[|OVERRIDE_PREFIX|..]
  {
    LatestLastWins(lines, configured, LineOverride);
    forall k | 0 <= k < |lines| {
      LineOverrideValue(lines[k]);
    }
  }

  // ---------------------------------------------------------------------------
  // Layout

  function PlainFont(s: CertSettings): Font { Font(s.font, false, false, s.originalFontSize) }
  function BoldFont(s: CertSettings): Font { Font(s.font, true, false, s.originalFontSize) }

  /** Whether a text can be rasterised: `new BufferedImage(stringWidth, height)` needs both positive. */
  predicate Rasterizable(m: Metrics, t: (string, Font)) {
    ValidBuffer(m.stringWidth(t.1, t.0), m.height(t.1))
  }

  /** The twelve text buffers, in the order `render` creates them: the plain ones, then the bold ones. */
  function Texts(s: CertSettings, d: BadgeData, participation: string): seq<(string, Font)> {
    var p, b := PlainFont(s), BoldFont(s);
    [(s.certification, p), (participation, p), (s.advisorTitle, p), (s.presidentTitle, p),
     (s.hostTitle, p), (s.hostInstitution, p), (s.dateLocation, p),
     (s.competitionTitle, b), (s.advisorName, b), (s.presidentName, b),
     (d.primaryText, b), (d.secondaryText, b)]
  }

  /** The failure of the first buffer that cannot be created, if any. */
  function FirstInvalid(m: Metrics, texts: seq<(string, Font)>): (r: Option<RenderError>)
    ensures r.None? <==> forall i :: 0 <= i < |texts| ==> Rasterizable(m, texts[i])
  {
    if texts == [] then None
    else if !Rasterizable(m, texts[0]) then
      Some(InvalidImageSize(m.stringWidth(texts[0].1, texts[0].0), m.height(texts[0].1)))
    else
      var rest := FirstInvalid(m, texts[1..]);
      assert forall i :: 1 <= i < |texts| ==> texts[i] == texts[1..][i - 1];
      rest
  }

  /** A centred block of the text column: its rasterised text, the text buffer's size, its height and the spacing after it as fractions of the page height, and an optional backdrop colour. */
  datatype Block = Block(sprite: Sprite, gw: int, gh: int, height: real, spacing: real, backdrop: Option<Color>)

  predicate Measured(blocks: seq<Block>) {
    forall i :: 0 <= i < |blocks| ==> blocks[i].gh > 0
  }

  function BlockHeight(b: Block, pageH: int): Int32 {
    IntCast(b.height * pageH as real)
  }

  /** The width that keeps the buffer's aspect at the block's height; nothing limits it to the page. */
  function BlockWidth(b: Block, pageH: int): Int32
    requires b.gh > 0
  {
    IntCast(Proportional(BlockHeight(b, pageH), b.gh, b.gw))
  }

  /** The cursor after a block: its height plus its spacing, truncated together. */
  function Advance(b: Block, y: int, pageH: int): int {
    y + IntCast(BlockHeight(b, pageH) as real + b.spacing * pageH as real)
  }

  /** A block's commands at cursor `y`: the backdrop (3% of the page width wider on each side) and the text centred across the page. */
  function BlockOps(b: Block, y: int, pageW: int, pageH: int): (ops: seq<Op>)
    requires b.gh > 0
    ensures |ops| >= 1
    ensures ops[|ops| - 1] == DrawSprite(b.sprite,
      Rect(Centered(pageW, BlockWidth(b, pageH)), y, ScaleSize(BlockWidth(b, pageH)), ScaleSize(BlockHeight(b, pageH))))
  {
    var h := BlockHeight(b, pageH);
    var w := BlockWidth(b, pageH);
    var x := Centered(pageW, w);
    var text := [DrawSprite(b.sprite, Rect(x, y, ScaleSize(w), ScaleSize(h)))];
    match b.backdrop
    case None => text
    case Some(c) =>
      var arc := IntCast(0.05 * pageH as real);
      [FillRoundRect(Rect(x - IntCast(0.03 * pageW as real), y, w + IntCast(0.06 * pageW as real), h), arc, c)] + text
  }

  /** The cursor positions of the blocks: each block starts where the previous one's advance ends. */
  function Tops(blocks: seq<Block>, y: int, pageH: int): (tops: seq<int>)
    ensures |tops| == |blocks|
  {
    if blocks == [] then [] else [y] + Tops(blocks[1..], Advance(blocks[0], y, pageH), pageH)
  }

  /** The commands of each block, in order. */
  function Stack(blocks: seq<Block>, y: int, pageW: int, pageH: int): (groups: seq<seq<Op>>)
    requires Measured(blocks)
    ensures |groups| == |blocks|
  {
    if blocks == [] then []
    else [BlockOps(blocks[0], y, pageW, pageH)] + Stack(blocks[1..], Advance(blocks[0], y, pageH), pageW, pageH)
  }

  /** Block `k` is drawn at the `k`-th cursor position. */
  lemma {:induction false} StackAt(blocks: seq<Block>, y: int, pageW: int, pageH: int, k: nat)
    requires Measured(blocks) && k < |blocks|
    ensures Stack(blocks, y, pageW, pageH)[k] == BlockOps(blocks[k], Tops(blocks, y, pageH)[k], pageW, pageH)
  {
    if k > 0 {
      var next := Advance(blocks[0], y, pageH);
      StackAt(blocks[1..], next, pageW, pageH, k - 1);
      assert blocks[1..][k - 1] == blocks[k];
      assert Tops(blocks, y, pageH)[k] == Tops(blocks[1..], next, pageH)[k - 1];
    }
  }

  function Flatten(groups: seq<seq<Op>>): seq<Op> {
    if groups == [] then [] else groups[0] + Flatten(groups[1..])
  }

  /** The commands of the whole text column, block after block. */
  function TextColumn(blocks: seq<Block>, top: int, pageW: int, pageH: int): seq<Op>
    requires Measured(blocks)
  {
    Flatten(Stack(blocks, top, pageW, pageH))
  }

  /** The text column: certification, name (white, on the backdrop), institution, participation, competition title, host title, host institution, date. */
  function Blocks(s: CertSettings, d: BadgeData, m: Metrics, participation: string): (r: seq<Block>)
    ensures |r| == 8 && r[|r| - 1].spacing == 0.0
    ensures r[1].sprite == Text(d.primaryText, BoldFont(s), WHITE) && r[1].backdrop == Some(s.textBackground)
    ensures r[2].sprite.Text? && r[2].sprite.text == d.secondaryText && r[3].sprite.Text? && r[3].sprite.text == participation
    ensures forall k :: 0 <= k < |r| && k != 1 ==> r[k].backdrop == None
    ensures forall k :: 0 <= k < |r| ==>
      r[k].sprite.Text? && r[k].gw == m.stringWidth(r[k].sprite.font, r[k].sprite.text) && r[k].gh == m.height(r[k].sprite.font)
  {
    var p, b := PlainFont(s), BoldFont(s);
    [Block(Text(s.certification, p, BLACK), m.stringWidth(p, s.certification), m.height(p), s.mainTextHeight, s.majorSpacing, None),
     Block(Text(d.primaryText, b, WHITE), m.stringWidth(b, d.primaryText), m.height(b), s.nameHeight, s.minorSpacing, Some(s.textBackground)),
     Block(Text(d.secondaryText, b, BLACK), m.stringWidth(b, d.secondaryText), m.height(b), s.institutionHeight, s.majorSpacing, None),
     Block(Text(participation, p, BLACK), m.stringWidth(p, participation), m.height(p), s.mainTextHeight, s.majorSpacing, None),
     Block(Text(s.competitionTitle, b, BLACK), m.stringWidth(b, s.competitionTitle), m.height(b), s.competitionTitleHeight, s.majorSpacing, None),
     Block(Text(s.hostTitle, p, BLACK), m.stringWidth(p, s.hostTitle), m.height(p), s.mainTextHeight, s.minorSpacing, None),
     Block(Text(s.hostInstitution, p, BLACK), m.stringWidth(p, s.hostInstitution), m.height(p), s.mainTextHeight, s.minorSpacing, None),
     Block(Text(s.dateLocation, p, BLACK), m.stringWidth(p, s.dateLocation), m.height(p), s.dateLocationHeight, 0.0, None)]
  }

  /** When every text can be rasterised, every block's buffer has a height, and so do both fonts. */
  lemma BlocksMeasured(s: CertSettings, d: BadgeData, m: Metrics, participation: string)
    requires forall i :: 0 <= i < 12 ==> Rasterizable(m, Texts(s, d, participation)[i])
    ensures Measured(Blocks(s, d, m, participation))
    ensures m.height(PlainFont(s)) > 0 && m.height(BoldFont(s)) > 0
  {
    var texts := Texts(s, d, participation);
    assert Rasterizable(m, texts[0]) && Rasterizable(m, texts[7]);
    var blocks := Blocks(s, d, m, participation);
    assert forall i :: 0 <= i < 8 ==> blocks[i].gh == m.height(PlainFont(s)) || blocks[i].gh == m.height(BoldFont(s));
  }

  /** The image a configured path yields: nothing when unset, unreadable or undecodable. */
  function Loaded(path: Option<string>, load: string -> LoadOutcome): (img: Option<Image>)
    ensures img.Some? ==> path.Some? && load(path.value) == Decoded(img.value)
  {
    match path
    case None => None
    case Some(p) =>
      match load(p)
      case Decoded(img) => Some(img)
      case _ => None
  }

  /**
   * The background picture, `backgroundHeight` of the page tall and as wide as its aspect
   * ratio gives, centred both ways (the centring uses the sizes before `scale`'s clamp).
   */
  function BackgroundOps(s: CertSettings, img: Option<Image>, pageW: int, pageH: int): (ops: seq<Op>)
    ensures img.None? ==> ops == []
    ensures img.Some? ==> |ops| == 1 && ops[0].DrawSprite? && ops[0].sprite == Picture(img.value, None)
    ensures img.Some? ==>
      var h := IntCast(s.backgroundHeight * pageH as real);
      var w := Carry(h, img.value.height, img.value.width);
      ops[0].at == Rect(Centered(pageW, w), Centered(pageH, h), ScaleSize(w), ScaleSize(h))
  {
    match img
    case None => []
    case Some(bg) =>
      var h := IntCast(s.backgroundHeight * pageH as real);
      var w := Carry(h, bg.height, bg.width);
      [DrawSprite(Picture(bg, None), Rect(Centered(pageW, w), Centered(pageH, h), ScaleSize(w), ScaleSize(h)))]
  }

  /** The top edge of the logo: its height plus 5% above the bottom of the page. */
  function LogoY(logoHeight: real, pageH: int): Int32 {
    IntCast((1.0 - 0.05 - logoHeight) * pageH as real)
  }

  /** The logo, `logoHeight` of the page tall (aspect kept), centred across the page with its top at `LogoY`. */
  function LogoOps(s: CertSettings, img: Option<Image>, pageW: int, pageH: int): (ops: seq<Op>)
    ensures img.None? ==> ops == []
    ensures img.Some? ==> |ops| == 1 && ops[0].DrawSprite? && ops[0].sprite == Picture(img.value, None)
    ensures img.Some? ==>
      var h := IntCast(s.logoHeight * pageH as real);
      var w := Carry(h, img.value.height, img.value.width);
      ops[0].at == Rect(Centered(pageW, w), LogoY(s.logoHeight, pageH), ScaleSize(w), ScaleSize(h))
  {
    match img
    case None => []
    case Some(logo) =>
      var h := IntCast(s.logoHeight * pageH as real);
      var w := Carry(h, logo.height, logo.width);
      [DrawSprite(Picture(logo, None), Rect(Centered(pageW, w), LogoY(s.logoHeight, pageH), ScaleSize(w), ScaleSize(h)))]
  }

  /** The centres of the two signature columns, at 17.5% and 82.5% of the page width. */
  function LeftCentre(pageW: int): Int32 { IntCast(0.175 * pageW as real) }
  function RightCentre(pageW: int): Int32 { IntCast(0.825 * pageW as real) }

  /** A signature line: 15% of the page width, centred on `centre` (the half width rounded toward zero). */
  function SignatureLine(centre: int, y: int, pageW: int, pageH: int): Rect {
    var w := IntCast(0.15 * pageW as real);
    Rect(centre - Half(w), y, w, IntCast(0.003 * pageH as real))
  }

  /** A staff text of height `h`, centred on `centre`. */
  function StaffText(sprite: Sprite, gw: int, gh: int, centre: int, y: int, h: int): (op: Op)
    requires gh > 0
    ensures op.DrawSprite? && op.sprite == sprite && op.at.y == y
    ensures 0 <= h ==> op.at.h == ScaleSize(h) && (op.at.x + op.at.w / 2 - centre) in {-1, 0, 1}
  {
    var w := IntCast(Proportional(h, gh, gw));
    DrawSprite(sprite, Rect(centre - Half(w), y, ScaleSize(w), ScaleSize(h)))
  }

  /**
   * The signature blocks: two black lines at `signaturesPosition` of the page (wherever the
   * text column ended), the staff names two minor spacings below them, and the titles one
   * minor spacing below the names.
   */
  function SignatureOps(s: CertSettings, m: Metrics, pageW: int, pageH: int): (ops: seq<Op>)
    requires m.height(PlainFont(s)) > 0 && m.height(BoldFont(s)) > 0
    ensures |ops| == 6
    ensures var y := IntCast(s.signaturesPosition * pageH as real);
      ops[0] == FillRect(SignatureLine(LeftCentre(pageW), y, pageW, pageH), BLACK) &&
      ops[1] == FillRect(SignatureLine(RightCentre(pageW), y, pageW, pageH), BLACK)
    ensures ops[2].DrawSprite? && ops[2].sprite == Text(s.advisorName, BoldFont(s), BLACK)
    ensures ops[3].DrawSprite? && ops[3].sprite == Text(s.presidentName, BoldFont(s), BLACK)
    ensures ops[4].DrawSprite? && ops[4].sprite == Text(s.advisorTitle, PlainFont(s), BLACK)
    ensures ops[5].DrawSprite? && ops[5].sprite == Text(s.presidentTitle, PlainFont(s), BLACK)
    ensures ops[2].at.y == ops[3].at.y && ops[4].at.y == ops[5].at.y
    ensures s.minorSpacing >= 0.0 && s.staffNamesHeight >= 0.0 && pageH >= 0 ==>
      ops[0].rect.y + ops[0].rect.h <= ops[2].at.y <= ops[4].at.y
  {
    var p, b := PlainFont(s), BoldFont(s);
    var y := IntCast(s.signaturesPosition * pageH as real);
    var left := SignatureLine(LeftCentre(pageW), y, pageW, pageH);
    var right := SignatureLine(RightCentre(pageW), y, pageW, pageH);
    var nameY := y + IntCast(left.h as real + 2.0 * s.minorSpacing * pageH as real);
    var nameH := IntCast(s.staffNamesHeight * pageH as real);
    var titleY := nameY + IntCast(nameH as real + s.minorSpacing * pageH as real);
    var titleH := IntCast(s.staffTitleHeight * pageH as real);
    var ops := [FillRect(left, BLACK), FillRect(right, BLACK),
     StaffText(Text(s.advisorName, b, BLACK), m.stringWidth(b, s.advisorName), m.height(b), LeftCentre(pageW), nameY, nameH),
     StaffText(Text(s.presidentName, b, BLACK), m.stringWidth(b, s.presidentName), m.height(b), RightCentre(pageW), nameY, nameH),
     StaffText(Text(s.advisorTitle, p, BLACK), m.stringWidth(p, s.advisorTitle), m.height(p), LeftCentre(pageW), titleY, titleH),
     StaffText(Text(s.presidentTitle, p, BLACK), m.stringWidth(p, s.presidentTitle), m.height(p), RightCentre(pageW), titleY, titleH)];
    if s.minorSpacing >= 0.0 && s.staffNamesHeight >= 0.0 && pageH >= 0 then
      SpacingNonNegative(s, pageH);
      StaffGaps(y, left.h, nameY, titleY, 2.0 * s.minorSpacing * pageH as real, nameH as real + s.minorSpacing * pageH as real);
      ops
    else ops
  }

  lemma SpacingNonNegative(s: CertSettings, pageH: int)
    requires s.minorSpacing >= 0.0 && s.staffNamesHeight >= 0.0 && pageH >= 0
    ensures 0.0 <= s.minorSpacing * pageH as real && 0.0 <= s.staffNamesHeight * pageH as real
  {
    MulMonotone(0.0, s.minorSpacing, pageH as real);
    MulMonotone(0.0, s.staffNamesHeight, pageH as real);
  }

  /** The arithmetic of the staff rows: gaps cast from non-negative lengths never move a row up. */
  lemma StaffGaps(lineY: int, lineH: int, nameY: int, titleY: int, lineGap: real, nameGap: real)
    requires 0 <= lineH <= INT_MAX && 0.0 <= lineGap && 0.0 <= nameGap
    requires nameY - lineY == IntCast(lineH as real + lineGap)
    requires titleY - nameY == IntCast(nameGap)
    ensures lineY + lineH <= nameY <= titleY
  {
    AtMostCast(lineH, lineH as real + lineGap);
  }

  /**
   * `render`: fails when the page has no pixels or one of the twelve text buffers would be
   * empty; otherwise fills the page, draws the background picture and the logo (when their
   * paths load), the text column from `topPadding` down, and the signature blocks.
   */
  function Layout(s: CertSettings, d: BadgeData, m: Metrics, load: string -> LoadOutcome): (r: Result<Raster, RenderError>)
    ensures r.Ok? <==>
      ValidBuffer(d.PixelDimension().0, d.PixelDimension().1) &&
      forall i :: 0 <= i < 12 ==> Rasterizable(m, Texts(s, d, Participation(d.extraData, s.participation))[i])
    ensures r.Ok? ==> r.value.width == d.PixelDimension().0 && r.value.height == d.PixelDimension().1
    ensures r.Ok? ==> |r.value.ops| > 0 && r.value.ops[0] == FillRect(Rect(0, 0, r.value.width, r.value.height), d.backgroundColor)
  {
    var (W, H) := d.PixelDimension();
    if !ValidBuffer(W, H) then Err(InvalidImageSize(W, H))
    else
      var participation := Participation(d.extraData, s.participation);
      var texts := Texts(s, d, participation);
      match FirstInvalid(m, texts)
      case Some(e) => Err(e)
      case None =>
        BlocksMeasured(s, d, m, participation);
        Ok(Page(s, d, m, load, Blocks(s, d, m, participation), W, H))
  }

  /**
   * A certificate whose texts can all be rasterised: the page fill, the background picture, the
   * logo, the text column from `topPadding` down and the signatures, in that order.
   */
  function Page(s: CertSettings, d: BadgeData, m: Metrics, load: string -> LoadOutcome, blocks: seq<Block>, W: int, H: int)
    : (page: Raster)
    requires Measured(blocks)
    requires m.height(PlainFont(s)) > 0 && m.height(BoldFont(s)) > 0
    ensures page.width == W && page.height == H
    ensures |page.ops| > 0 && page.ops[0] == FillRect(Rect(0, 0, W, H), d.backgroundColor)
  {
    PageAt(s, d, m, load, blocks, Portion(s.topPadding, H), W, H)
  }

  /** The page with its text column starting at row `top`. */
  function PageAt(s: CertSettings, d: BadgeData, m: Metrics, load: string -> LoadOutcome, blocks: seq<Block>, top: int, W: int, H: int)
    : (page: Raster)
    requires Measured(blocks)
    requires m.height(PlainFont(s)) > 0 && m.height(BoldFont(s)) > 0
    ensures page.width == W && page.height == H
    ensures |page.ops| > 0 && page.ops[0] == FillRect(Rect(0, 0, W, H), d.backgroundColor)
  {
    Raster(W, H, PageHead(s, d, load, W, H) + TextColumn(blocks, top, W, H) + SignatureOps(s, m, W, H))
  }

  /** What is drawn before the text column: the page fill, the background picture and the logo. */
  function PageHead(s: CertSettings, d: BadgeData, load: string -> LoadOutcome, W: int, H: int): (ops: seq<Op>)
    ensures |ops| > 0 && ops[0] == FillRect(Rect(0, 0, W, H), d.backgroundColor)
    ensures var bg, logo := Loaded(s.pathToBackground, load), Loaded(s.pathToLogo, load);
      |ops| == 1 + (if bg.Some? then 1 else 0) + (if logo.Some? then 1 else 0) &&
      (bg.Some? ==> ops[1] == BackgroundOps(s, bg, W, H)[0]) &&
      (logo.Some? ==> ops[|ops| - 1] == LogoOps(s, logo, W, H)[0])
  {
    [FillRect(Rect(0, 0, W, H), d.backgroundColor)] +
    BackgroundOps(s, Loaded(s.pathToBackground, load), W, H) +
    LogoOps(s, Loaded(s.pathToLogo, load), W, H)
  }

  // ---------------------------------------------------------------------------
  // Where things land

  /** A non-negative whole number at most `x` is at most its truncation, saturation included. */
  lemma AtMostCast(k: int, x: real)
    requires 0 <= k <= INT_MAX && k as real <= x
    ensures k <= IntCast(x)
  {
    if x < 2147483648.0 {
      WholeBelowCast(k, x);
    }
  }

  /** The cursor moves down by at least the block's height when the block height and spacing are not negative. */
  lemma AdvanceCoversBlock(b: Block, y: int, pageH: int)
    requires 0.0 <= b.height && 0.0 <= b.spacing && 0 <= pageH
    ensures 0 <= BlockHeight(b, pageH)
    ensures y + BlockHeight(b, pageH) <= Advance(b, y, pageH)
  {
    var H := pageH as real;
    MulMonotone(0.0, b.height, H);
    MulMonotone(0.0, b.spacing, H);
    var h := BlockHeight(b, pageH);
    AtMostCast(h, h as real + b.spacing * H);
  }

  predicate NonNegative(blocks: seq<Block>) {
    forall i :: 0 <= i < |blocks| ==> 0.0 <= blocks[i].height && 0.0 <= blocks[i].spacing
  }

  /** No block starts above the cursor it was given. */
  lemma {:induction false} TopsBelowStart(blocks: seq<Block>, y: int, pageH: int)
    requires NonNegative(blocks) && 0 <= pageH
    ensures forall k :: 0 <= k < |blocks| ==> y <= Tops(blocks, y, pageH)[k]
  {
    if blocks != [] {
      AdvanceCoversBlock(blocks[0], y, pageH);
      var next := Advance(blocks[0], y, pageH);
      assert NonNegative(blocks[1..]) by {
        assert forall i :: 0 <= i < |blocks| - 1 ==> blocks[1..][i] == blocks[i + 1];
      }
      TopsBelowStart(blocks[1..], next, pageH);
    }
  }

  /**
   * With non-negative heights and spacings the text column never overlaps itself: every
   * block ends at or above the start of every later block.
   */
  lemma {:induction false} ColumnDisjoint(blocks: seq<Block>, y: int, pageH: int)
    requires NonNegative(blocks) && 0 <= pageH
    ensures forall i, j :: 0 <= i < j < |blocks| ==>
      Tops(blocks, y, pageH)[i] + BlockHeight(blocks[i], pageH) <= Tops(blocks, y, pageH)[j]
  {
    if blocks != [] {
      var tops := Tops(blocks, y, pageH);
      var next := Advance(blocks[0], y, pageH);
      var rest := blocks[1..];
      assert NonNegative(rest) by {
        assert forall i :: 0 <= i < |rest| ==> rest[i] == blocks[i + 1];
      }
      AdvanceCoversBlock(blocks[0], y, pageH);
      TopsBelowStart(rest, next, pageH);
      ColumnDisjoint(rest, next, pageH);
      assert forall k :: 1 <= k < |blocks| ==> tops[k] == Tops(rest, next, pageH)[k - 1] && blocks[k] == rest[k - 1];
    }
  }

  /** Each block starts one truncated height-plus-spacing below the previous one. */
  lemma {:induction false} TopsAdvance(blocks: seq<Block>, y: int, pageH: int)
    ensures |blocks| > 0 ==> Tops(blocks, y, pageH)[0] == y
    ensures forall k :: 0 <= k < |blocks| - 1 ==>
      Tops(blocks, y, pageH)[k + 1] == Advance(blocks[k], Tops(blocks, y, pageH)[k], pageH)
  {
    if blocks != [] {
      var rest := blocks[1..];
      var next := Advance(blocks[0], y, pageH);
      TopsAdvance(rest, next, pageH);
      assert forall k :: 1 <= k < |blocks| ==> Tops(blocks, y, pageH)[k] == Tops(rest, next, pageH)[k - 1] && blocks[k] == rest[k - 1];
    }
  }

  /** The name's backdrop frames the name: same top and height, and at least as far out on both sides. */
  lemma BackdropFramesName(b: Block, y: int, pageW: int, pageH: int)
    requires b.gh > 0 && b.backdrop.Some? && 0 <= pageW
    requires BlockWidth(b, pageH) > 0 && BlockHeight(b, pageH) > 0
    ensures var ops := BlockOps(b, y, pageW, pageH);
      |ops| == 2 && ops[0].FillRoundRect? && ops[1].DrawSprite? &&
      ops[0].rect.y == ops[1].at.y && ops[0].rect.h == ops[1].at.h &&
      ops[0].rect.x <= ops[1].at.x && ops[1].at.x + ops[1].at.w <= ops[0].rect.x + ops[0].rect.w
  {
    var Wr := pageW as real;
    MulMonotone(0.0, 0.03, Wr);
    AtMostCast(IntCast(0.03 * Wr), 0.06 * Wr);
  }

  /** The logo ends no lower than 95% of the page height, when it is at most that tall. */
  lemma LogoAboveBottomMargin(logoHeight: real, pageH: int)
    requires 0.0 <= logoHeight <= 0.95 && 0 <= pageH <= INT_MAX
    ensures LogoY(logoHeight, pageH) + IntCast(logoHeight * pageH as real) <= IntCast(0.95 * pageH as real)
  {
    var H := pageH as real;
    assert 0.95 * H < 2147483648.0;
    LogoSplitsPage(logoHeight, H);
    assert LogoY(logoHeight, pageH) == IntCast((1.0 - 0.05 - logoHeight) * H);
    CastSumBelow((1.0 - 0.05 - logoHeight) * H, logoHeight * H, 0.95 * H);
  }

  /** The space above the logo and the logo's height are non-negative and add up to 95% of the page. */
  lemma LogoSplitsPage(logoHeight: real, H: real)
    requires 0.0 <= logoHeight <= 0.95 && 0.0 <= H
    ensures 0.0 <= (1.0 - 0.05 - logoHeight) * H && 0.0 <= logoHeight * H
    ensures (1.0 - 0.05 - logoHeight) * H + logoHeight * H == 0.95 * H
  {
    MulMonotone(0.0, logoHeight, H);
    MulMonotone(0.0, 0.95 - logoHeight, H);
  }

  /** Truncating two non-negative parts separately loses at least as much as truncating their sum. */
  lemma CastSumBelow(a: real, b: real, c: real)
    requires 0.0 <= a && 0.0 <= b && a + b == c && c < 2147483648.0
    ensures IntCast(a) + IntCast(b) <= IntCast(c)
  {
    var x, y := IntCast(a), IntCast(b);
    assert x as real <= a && y as real <= b;
    WholeBelowCast(x + y, c);
  }

  /** On a page at least 10 pixels wide, the two signature lines lie inside the page, left one first, without touching. */
  lemma SignatureLinesApart(pageW: int, y: int, pageH: int)
    requires 10 <= pageW <= INT_MAX
    ensures var l, r := SignatureLine(LeftCentre(pageW), y, pageW, pageH), SignatureLine(RightCentre(pageW), y, pageW, pageH);
      0 <= l.x && l.x + l.w < r.x && r.x + r.w <= pageW
  {
    var Wr := pageW as real;
    var w := IntCast(0.15 * Wr);
    var a := LeftCentre(pageW);
    var b := RightCentre(pageW);
    assert w as real <= 0.15 * Wr < w as real + 1.0;
    assert a as real <= 0.175 * Wr < a as real + 1.0;
    assert b as real <= 0.825 * Wr < b as real + 1.0;
    assert (b - Half(w) + w) as real <= pageW as real;
  }

  // ---------------------------------------------------------------------------
  // The renderer object

  /** The column of blocks is the first block at the cursor followed by the column of the rest one advance below. */
  lemma StackCons(blocks: seq<Block>, y: int, pageW: int, pageH: int)
    requires Measured(blocks) && |blocks| > 0
    ensures Measured(blocks[1..])
    ensures Flatten(Stack(blocks, y, pageW, pageH)) ==
      BlockOps(blocks[0], y, pageW, pageH) + Flatten(Stack(blocks[1..], Advance(blocks[0], y, pageH), pageW, pageH))
  {
    assert forall i :: 0 <= i < |blocks| - 1 ==> blocks[1..][i] == blocks[i + 1];
    var rest := Stack(blocks[1..], Advance(blocks[0], y, pageH), pageW, pageH);
    var groups := [BlockOps(blocks[0], y, pageW, pageH)] + rest;
    assert Stack(blocks, y, pageW, pageH) == groups;
    assert groups[0] == BlockOps(blocks[0], y, pageW, pageH) && groups[1..] == rest;
  }

  /** The text column drawn by moving the cursor down one block at a time. */
  method Column(blocks: seq<Block>, top: int, pageW: int, pageH: int) returns (column: seq<Op>)
    requires Measured(blocks)
    ensures column == TextColumn(blocks, top, pageW, pageH)
  {
    var y := top;
    column := [];
    var i := 0;
    while i < |blocks|
      invariant 0 <= i <= |blocks|
      invariant column + Flatten(Stack(blocks[i..], y, pageW, pageH)) == Flatten(Stack(blocks, top, pageW, pageH))
    {
      column, y := DrawBlock(blocks, i, column, y, pageW, pageH);
      i := i + 1;
    }
  }

  /** One pass of the column: block `i` drawn at the cursor, and the cursor moved below it. */
  method DrawBlock(blocks: seq<Block>, i: nat, column: seq<Op>, y: int, pageW: int, pageH: int)
    returns (drawn: seq<Op>, next: int)
    requires Measured(blocks) && i < |blocks|
    ensures next == Advance(blocks[i], y, pageH)
    ensures drawn + Flatten(Stack(blocks[i + 1..], next, pageW, pageH)) ==
      column + Flatten(Stack(blocks[i..], y, pageW, pageH))
  {
    assert blocks[i..][1..] == blocks[i + 1..];
    StackCons(blocks[i..], y, pageW, pageH);
    next := Advance(blocks[i], y, pageH);
    drawn := column + BlockOps(blocks[i], y, pageW, pageH);
  }

  /** The constructor's declarations of the certificate texts. */
  method DeclareTextProperties(b: Renderer)
    modifies b
    ensures b.properties == old(b.properties) + TEXT_PROPERTIES
  {
    DeclareStaffProperties(b);
    DeclareEventProperties(b);
  }

  /** The first seven text declarations: the font, the preambles and the signatories. */
  method DeclareStaffProperties(b: Renderer)
    modifies b
    ensures b.properties == old(b.properties) + STAFF_PROPERTIES
  {
    b.AddPropertyWithDefault("font", STRING, "SansSerif", "name of font to use for text");
    b.AddPropertyWithDefault("certification", STRING, "This is to certify that the robot", "certification preamble");
    b.AddPropertyWithDefault("participation", STRING, "participated in the", "participation preamble");
    b.AddPropertyWithDefault("advisor-name", STRING, "Dr. Carl D. Latino", "name of competition advisor");
    b.AddPropertyWithDefault("advisor-title", STRING, "Creator / Director", "competition advisor's title");
    b.AddPropertyWithDefault("president-name", STRING, "Mr. Club President", "name of club president");
    b.AddPropertyWithDefault("president-title", STRING, "Mercury Robotics President", "title of club president");
  }

  /** The last four text declarations: the competition, its host and its date. */
  method DeclareEventProperties(b: Renderer)
    modifies b
    ensures b.properties == old(b.properties) + EVENT_PROPERTIES
  {
    b.AddPropertyWithDefault("competition-title", STRING, "8th Annual Mercury Remote Robot Challenge", "competition title");
    b.AddPropertyWithDefault("host-title", STRING, "Hosted by the Electrical and Computer Engineering Department", "certification sub-heading");
    b.AddPropertyWithDefault("host-institution", STRING, "Oklahoma State University", "host institution");
    b.AddPropertyWithDefault("date-and-location", STRING, "Month ##, 20## - Stillwater, Oklahoma", "competition date and location");
  }

  /** The constructor's declarations of the pictures and the name backdrop. */
  method DeclareImageProperties(b: Renderer)
    modifies b
    ensures b.properties == old(b.properties) + IMAGE_PROPERTIES
  {
    b.AddProperty("path-to-logo", STRING, "path to logo image file");
    b.AddProperty("path-to-background", STRING, "path to background image file");
    b.AddPropertyWithDefault("background-height", FLOAT, "0.750", "page background height in proportion to page height");
    b.AddPropertyWithDefault("text-background", STRING, "ff7300", "name text background (HTML hex)");
  }

  /** The constructor's declarations of the layout proportions and the font size. */
  method DeclareLayoutProperties(b: Renderer)
    modifies b
    ensures b.properties == old(b.properties) + LAYOUT_PROPERTIES
  {
    DeclareHeightProperties(b);
    DeclareSpacingProperties(b);
  }

  /** The first eight layout declarations: the top padding and the text heights. */
  method DeclareHeightProperties(b: Renderer)
    modifies b
    ensures b.properties == old(b.properties) + HEIGHT_PROPERTIES
  {
    b.AddPropertyWithDefault("padding-top", FLOAT, "0.070", "top padding in proportion to page height");
    b.AddPropertyWithDefault("main-text-height", FLOAT, "0.040", "main text height in proportion to page height");
    b.AddPropertyWithDefault("name-text-height", FLOAT, "0.100", "team name text height in proportion to page height");
    b.AddPropertyWithDefault("institution-height", FLOAT, "0.060", "team institution text height in proportion to page height");
    b.AddPropertyWithDefault("title-height", FLOAT, "0.060", "competition title height in proportion to page height");
    b.AddPropertyWithDefault("date-text-height", FLOAT, "0.035", "date text height in proportion to page height");
    b.AddPropertyWithDefault("staff-name-height", FLOAT, "0.035", "staff name text height in proportion to page height");
    b.AddPropertyWithDefault("staff-title-height", FLOAT, "0.025", "staff title text height in proportion to page height");
  }

  /** The last five layout declarations: signatures, logo, spacings and font size. */
  method DeclareSpacingProperties(b: Renderer)
    modifies b
    ensures b.properties == old(b.properties) + SPACING_PROPERTIES
  {
    b.AddPropertyWithDefault("signatures-position", FLOAT, "0.840", "positiion of staff signatures in proportion to page height from the top");
    b.AddPropertyWithDefault("logo-height", FLOAT, "0.250", "competition logo height in proportion to page height");
    b.AddPropertyWithDefault("major-spacing", FLOAT, "0.039", "vertical spacing between text in proportion to the page height");
    b.AddPropertyWithDefault("minor-spacing", FLOAT, "0.010", "minor vertical spacing between text in proportion to the page height");
    b.AddPropertyWithDefault("font-size-initial", INTEGER, "200", "initial full resolution font size");
  }

  /** The page of a certificate whose texts can all be rasterised, drawn in `render`'s order. */
  method DrawPage(s: CertSettings, d: BadgeData, m: Metrics, load: string -> LoadOutcome, blocks: seq<Block>, W: int, H: int)
    returns (page: Raster)
    requires Measured(blocks)
    requires m.height(PlainFont(s)) > 0 && m.height(BoldFont(s)) > 0
    ensures page == Page(s, d, m, load, blocks, W, H)
  {
    var top := Portion(s.topPadding, H);
    var head := PageHead(s, d, load, W, H);
    var signatures := SignatureOps(s, m, W, H);
    var column := Column(blocks, top, W, H);
    page := Raster(W, H, head + column + signatures);
  }

  class Certificate {
    const base: Renderer
    var settings: CertSettings

    /** The constructor declares the 28 properties and starts from the default settings. */
    constructor()
      ensures fresh(base) && base.properties == CERTIFICATE_PROPERTIES
      ensures settings == DEFAULT_SETTINGS
    {
      var b := new Renderer();
      DeclareTextProperties(b);
      DeclareImageProperties(b);
      DeclareLayoutProperties(b);
      base := b;
      settings := DEFAULT_SETTINGS;
    }

    method SetProperty(key: string, value: string) returns (outcome: SetOutcome)
      modifies this
      ensures (settings, outcome) == Set(old(settings), key, value)
    {
      var r := Set(settings, key, value);
      settings := r.0;
      outcome := r.1;
    }

    /**
     * `render`, step by step: the page, the images, the participation loop, the buffer checks,
     * then the cursor moving down the text column one block at a time.
     */
    method Render(d: BadgeData, m: Metrics, load: string -> LoadOutcome) returns (r: Result<Raster, RenderError>)
      ensures r == Layout(settings, d, m, load)
    {
      var (W, H) := d.PixelDimension();
      if !ValidBuffer(W, H) {
        return Err(InvalidImageSize(W, H));
      }
      var s := settings;
      var participation := ParticipationText(d.extraData, s.participation);
      var failure := FirstInvalid(m, Texts(s, d, participation));
      if failure.Some? {
        return Err(failure.value);
      }
      BlocksMeasured(s, d, m, participation);
      var page := DrawPage(s, d, m, load, Blocks(s, d, m, participation), W, H);
      r := Ok(page);
      assert Layout(s, d, m, load) == r;
    }
  }
}
