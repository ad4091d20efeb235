/**
 * The rules of src/pages/ApplicationListPage.jsx that decide what a card
 * shows: the list fallback, the description cut at 100 characters, and the
 * colour class of a status, which ignores letter case.
 *
 * Strings are sequences of characters; JavaScript counts UTF-16 code units
 * and lower-cases all of Unicode, while this model counts characters and
 * lower-cases ASCII letters.
 */
module ApplicationList {
  import opened JsValues

  /** The fields of one application that the card reads. */
  datatype Application = Application(id: int, name: string, status: string, description: string, gitUrl: string)

  /** The response of `getApplications`, whose `applications` field may be missing. */
  datatype Response = Response(applications: Option<seq<Application>>)

  /** `response?.applications || []`: an array, even an empty one, is kept; anything missing becomes `[]`. */
  function ApplicationsOf(response: Option<Response>): (r: seq<Application>)
    ensures response.None? || response.value.applications.None? ==> r == []
    ensures response.Some? && response.value.applications.Some? ==> r == response.value.applications.value
  {
    match response
    case None => []
    case Some(resp) =>
      match resp.applications
      case None => []
      case Some(apps) => apps
  }

  const DescriptionLimit := 100
  const Ellipsis := "..."

  /** The description as the card shows it: its first 100 characters and "..." when it is longer. */
  function ShownDescription(d: string): (r: string)
    ensures |r| == if |d| <= DescriptionLimit then |d| else DescriptionLimit + |Ellipsis|
    ensures |r| <= DescriptionLimit + |Ellipsis|
    ensures var kept := if |d| <= DescriptionLimit then |d| else DescriptionLimit;
      r[..kept] == d[..kept]
    ensures |d| > DescriptionLimit ==> r[DescriptionLimit..] == Ellipsis
  {
    if |d| > DescriptionLimit then d[..DescriptionLimit] + Ellipsis else d
  }

  /**
   * A description is shown as it is exactly when it has at most 100
   * characters, or when it is 103 characters whose last three are "...".
   */
  lemma ShownUnchangedIff(d: string)
    ensures ShownDescription(d) == d <==>
      (|d| <= DescriptionLimit || (|d| == DescriptionLimit + |Ellipsis| && d[DescriptionLimit..] == Ellipsis))
  {
    if |d| > DescriptionLimit && ShownDescription(d) == d {
      assert d[DescriptionLimit..] == ShownDescription(d)[DescriptionLimit..];
    }
    if |d| == DescriptionLimit + |Ellipsis| && d[DescriptionLimit..] == Ellipsis {
      assert d == d[..DescriptionLimit] + d[DescriptionLimit..];
    }
  }

  /** Cutting a shown description again changes nothing. */
  lemma ShownDescriptionIdempotent(d: string)
    ensures ShownDescription(ShownDescription(d)) == ShownDescription(d)
  {
    ShownUnchangedIff(ShownDescription(d));
  }

  /** `toLowerCase` on one character, for the ASCII letters. */
  function LowerChar(c: char): (r: char)
    ensures 'A' <= c <= 'Z' ==> 'a' <= r <= 'z'
    ensures !('A' <= c <= 'Z') ==> r == c
  {
    if 'A' <= c <= 'Z' then (c as int - 'A' as int + 'a' as int) as char else c
  }

  function ToLower(s: string): (r: string)
    ensures |r| == |s|
    ensures forall i :: 0 <= i < |s| ==> r[i] == LowerChar(s[i])
  {
    if s == [] then [] else [LowerChar(s[0])] + ToLower(s[1..])
  }

  /** The three looks a status can have. */
  datatype Tone = Green | Amber | Red

  /** The reference classification: what a status means, ignoring letter case. */
  function ToneOf(status: string): Tone
  {
    var s := ToLower(status);
    if s == "approved" then Green else if s == "pending" then Amber else Red
  }

  /** The `background-color` switch of `AppStatus`. */
  function BackgroundColor(status: string): string
  {
    match ToLower(status)
    case "approved" => "rgba(16, 185, 129, 0.2)"
    case "pending" => "rgba(245, 158, 11, 0.2)"
    case _ => "rgba(239, 68, 68, 0.2)"
  }

  /** The `color` switch of `AppStatus`. */
  function TextColor(status: string): string
  {
    match ToLower(status)
    case "approved" => "#10b981"
    case "pending" => "#f59e0b"
    case _ => "#ef4444"
  }

  function BackgroundOfTone(t: Tone): string
  {
    match t
    case Green => "rgba(16, 185, 129, 0.2)"
    case Amber => "rgba(245, 158, 11, 0.2)"
    case Red => "rgba(239, 68, 68, 0.2)"
  }

  function TextOfTone(t: Tone): string
  {
    match t
    case Green => "#10b981"
    case Amber => "#f59e0b"
    case Red => "#ef4444"
  }

  /**
   * The two switches agree: both colours of a status are those of its
   * tone, so background and text never come from different cases.
   */
  lemma ColorsFollowTone(status: string)
    ensures BackgroundColor(status) == BackgroundOfTone(ToneOf(status))
    ensures TextColor(status) == TextOfTone(ToneOf(status))
  {
  }

  /** Two spellings of a status that differ only in letter case look the same. */
  lemma CaseInsensitive(a: string, b: string)
    requires ToLower(a) == ToLower(b)
    ensures BackgroundColor(a) == BackgroundColor(b) && TextColor(a) == TextColor(b)
  {
  }

  /** Lower-casing twice is lower-casing once. */
  lemma {:induction false} ToLowerIdempotent(s: string)
    ensures ToLower(ToLower(s)) == ToLower(s)
  {
    if s != [] {
      ToLowerIdempotent(s[1..]);
      assert ToLower(s)[1..] == ToLower(s[1..]);
    }
  }

  /** A status and its lower-case spelling get the same tone and colours. */
  lemma ToneIgnoresCase(status: string)
    ensures ToneOf(ToLower(status)) == ToneOf(status)
    ensures BackgroundColor(ToLower(status)) == BackgroundColor(status)
    ensures TextColor(ToLower(status)) == TextColor(status)
  {
    ToLowerIdempotent(status);
  }

  /** Any status that is not a spelling of "approved" or "pending" is red. */
  lemma OtherIsRed(status: string)
    requires ToLower(status) != "approved" && ToLower(status) != "pending"
    ensures ToneOf(status) == Red && TextColor(status) == "#ef4444"
  {
  }

  /** What one card shows. */
  datatype Card = Card(key: int, name: string, status: string, background: string, color: string,
                       description: string, repository: string)

  /**
   * The card of one application: its own id, name, status and repository,
   * the colours of its status's tone, and its description cut to at most
   * 103 characters.
   */
  function CardOf(app: Application): (c: Card)
    ensures c.key == app.id && c.name == app.name && c.status == app.status && c.repository == app.gitUrl
    ensures c.background == BackgroundOfTone(ToneOf(app.status)) && c.color == TextOfTone(ToneOf(app.status))
    ensures c.description == ShownDescription(app.description)
    ensures |c.description| <= DescriptionLimit + |Ellipsis|
  {
    ColorsFollowTone(app.status);
    Card(app.id, app.name, app.status, BackgroundColor(app.status), TextColor(app.status),
         ShownDescription(app.description), app.gitUrl)
  }

  /** `applications.map(app => <ApplicationCard …>)`: one card per application, in response order. */
  function Cards(apps: seq<Application>): (r: seq<Card>)
    ensures |r| == |apps|
    ensures forall i :: 0 <= i < |apps| ==> r[i] == CardOf(apps[i])
  {
    if apps == [] then [] else [CardOf(apps[0])] + Cards(apps[1..])
  }

  /** What the page renders: the spinner first, then an error, then the cards. */
  datatype PageView = Spinner | ErrorMessage(text: string) | Grid(cards: seq<Card>)

  function ListPage(isLoading: bool, error: Option<string>, response: Option<Response>): (r: PageView)
    ensures isLoading ==> r == Spinner
    ensures !isLoading && error.Some? ==> r == ErrorMessage("Error: " + error.value)
    ensures r.Grid? <==> !isLoading && error.None?
    ensures r.Grid? ==> r.cards == Cards(ApplicationsOf(response))
    ensures r.Grid? ==> |r.cards| == |ApplicationsOf(response)|
  {
    if isLoading then Spinner
    else if error.Some? then ErrorMessage("Error: " + error.value)
    else Grid(Cards(ApplicationsOf(response)))
  }
}
