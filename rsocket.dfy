/**
 * `BlogRSocketClient`: the request routes, the old list API built by collecting the streams,
 * and `convertException`, which reads an HTTP status and reason back out of an RSocket
 * application error's message.
 */
module RSocketClient {
  import opened Wrappers
  import opened Strings
  import opened Failures
  import opened BlogModel
  import opened Reactive
  import HttpStatus

  /** `"/entries/" + entryId`: the route of `findById`. */
  function EntryRoute(id: EntryId): (route: string)
    ensures StartsWith(route, "/entries/")
    ensures route[|"/entries/"|..] == IntToString(id)
  {
    "/entries/" + IntToString(id)
  }

  /** `/categories/<names joined by ",">/entries`: the route of `streamByCategories`. */
  function CategoriesRoute(categories: seq<Category>): (route: string)
    ensures StartsWith(route, "/categories/") && EndsWith(route, "/entries")
    ensures |route| >= |"/categories/"| + |"/entries"|
    ensures route[|"/categories/"|..|route| - |"/entries"|] == Join(CategoryNames(categories), ",")
  {
    "/categories/" + Join(CategoryNames(categories), ",") + "/entries"
  }

  /** The RSocket failures `convertException` is given: an application error, or another `RSocketException`. */
  datatype RSocketError =
    | ApplicationError(message: Option<string>)
    | OtherRSocketError(className: string, message: Option<string>)

  /** The characters `.` does not match in a Java regex: the line terminators. */
  predicate IsLineTerminator(c: char)
  {
    c == '\n' || c == '\r' || c == '\U{0085}' || c == '\U{2028}' || c == '\U{2029}'
  }

  predicate SingleLine(s: string)
  {
    forall i :: 0 <= i < |s| ==> !IsLineTerminator(s[i])
  }

  const StatusPrefix := "Response status "
  const ReasonInfix := " with reason \""

  /** The longest prefix of `s` made of digits. */
  function LeadingDigits(s: string): (d: string)
    ensures AllDigits(d) && |d| <= |s| && d == s[..|d|]
    ensures |d| < |s| ==> !IsDigit(s[|d|])
  {
    if |s| > 0 && IsDigit(s[0]) then [s[0]] + LeadingDigits(s[1..]) else ""
  }

  lemma {:induction false} LeadingDigitsOf(d: string, t: string)
    requires AllDigits(d)
    requires |t| == 0 || !IsDigit(t[0])
    ensures LeadingDigits(d + t) == d
  {
    if |d| > 0 {
      assert (d + t)[1..] == d[1..] + t;
      LeadingDigitsOf(d[1..], t);
    } else {
      assert d + t == t;
    }
  }

  /** The message the pattern describes: status digits `d` and reason `r`. */
  function StatusLine(d: string, r: string): string
  {
    StatusPrefix + d + ReasonInfix + r + "\""
  }

  /**
   * `Pattern.compile("Response status (\\d+) with reason \"(.+)\"").matcher(m).matches()`, and
   * its two groups. The digits are followed by a space, so the first group is the whole digit
   * run; `.+` is greedy and the match must reach the end, so the reason runs to the final quote.
   */
  function ParseStatusLine(m: string): (r: Option<(string, string)>)
    ensures r.Some? ==>
      var (d, reason) := r.value;
      && m == StatusLine(d, reason)
      && |d| >= 1 && AllDigits(d)
      && |reason| >= 1 && SingleLine(reason)
  {
    if !StartsWith(m, StatusPrefix) then None
    else
      var rest := m[|StatusPrefix|..];
      var d := LeadingDigits(rest);
      var after := rest[|d|..];
      if |d| == 0 || !StartsWith(after, ReasonInfix) || |after| < |ReasonInfix| + 2 || after[|after| - 1] != '"' then None
      else
        var reason := after[|ReasonInfix|..|after| - 1];
        if !SingleLine(reason) then None
        else
          Reassemble(m, rest, d, after, reason);
          Some((d, reason))
  }

  /** The three pieces `ParseStatusLine` cuts a message into put it back together. */
  lemma Reassemble(m: string, rest: string, d: string, after: string, reason: string)
    requires StartsWith(m, StatusPrefix) && rest == m[|StatusPrefix|..]
    requires |d| <= |rest| && d == rest[..|d|] && after == rest[|d|..]
    requires StartsWith(after, ReasonInfix) && |after| >= |ReasonInfix| + 2 && after[|after| - 1] == '"'
    requires reason == after[|ReasonInfix|..|after| - 1]
    ensures m == StatusLine(d, reason)
  {
    assert m == StatusPrefix + rest;
    assert rest == d + after;
    assert after == ReasonInfix + reason + "\"";
  }

  /** Every message of the described form is matched, with exactly its digits and reason as groups. */
  lemma ParseStatusLineComplete(d: string, reason: string)
    requires |d| >= 1 && AllDigits(d)
    requires |reason| >= 1 && SingleLine(reason)
    ensures ParseStatusLine(StatusLine(d, reason)) == Some((d, reason))
  {
    var m := StatusLine(d, reason);
    var after := ReasonInfix + reason + "\"";
    assert m == StatusPrefix + (d + after);
    assert m[|StatusPrefix|..] == d + after;
    LeadingDigitsOf(d, after);
    assert (d + after)[|d|..] == after;
    assert after[|ReasonInfix|..|after| - 1] == reason;
  }

  const MaxInt := 2147483647

  /**
   * `convertException`: a matching application error becomes a `ResponseStatusException` with the
   * parsed status and reason; `Integer.parseInt` rejects digits past `Integer.MAX_VALUE` and
   * `HttpStatus.valueOf` rejects unknown codes, and those exceptions escape instead. Any other
   * failure becomes a 500 carrying the original message. A missing message on an application
   * error makes the matcher throw.
   */
  function ConvertException(e: RSocketError): (f: Failure)
    ensures e.OtherRSocketError? ==> f == StatusError(HttpStatus.INTERNAL_SERVER_ERROR, e.message)
    ensures e.ApplicationError? && e.message.Some? && ParseStatusLine(e.message.value).None? ==>
      f == StatusError(HttpStatus.INTERNAL_SERVER_ERROR, e.message)
    ensures e.ApplicationError? && e.message.Some? && ParseStatusLine(e.message.value).Some? ==>
      var (d, reason) := ParseStatusLine(e.message.value).value;
      var code := DigitsValue(d);
      && (code <= MaxInt && HttpStatus.IsKnown(code) ==> f == StatusError(code, Some(reason)))
      && (code <= MaxInt && !HttpStatus.IsKnown(code) ==>
            f == NoMatchingConstant(code))
      && (code > MaxInt ==> f == Other("java.lang.NumberFormatException", Some("For input string: \"" + d + "\"")))
    ensures f.StatusError? ==> f.status == HttpStatus.INTERNAL_SERVER_ERROR || HttpStatus.IsKnown(f.status)
  {
    match e
    case OtherRSocketError(_, m) => StatusError(HttpStatus.INTERNAL_SERVER_ERROR, m)
    case ApplicationError(None) => Other("java.lang.NullPointerException", None)
    case ApplicationError(Some(m)) =>
      match ParseStatusLine(m)
      case None => StatusError(HttpStatus.INTERNAL_SERVER_ERROR, Some(m))
      case Some((d, reason)) =>
        var code := DigitsValue(d);
        if code > MaxInt then Other("java.lang.NumberFormatException", Some("For input string: \"" + d + "\""))
        else
          match HttpStatus.ValueOf(code)
          case Ok(_) => StatusError(code, Some(reason))
          case Err(_) => NoMatchingConstant(code)
  }

  /**
   * The round trip with the server's `ResponseStatusException`: the message of a known status
   * with a non-empty single-line reason converts back to that status and reason.
   */
  lemma StatusMessageRoundTrip(code: int, reason: string)
    requires HttpStatus.IsKnown(code)
    requires |reason| >= 1 && SingleLine(reason)
    ensures ConvertException(ApplicationError(Message(StatusError(code, Some(reason)))))
      == StatusError(code, Some(reason))
  {
    HttpStatus.KnownRange(code);
    var d := NatToString(code);
    var m := StatusMessage(code, Some(reason));
    assert m == StatusLine(d, reason);
    assert Message(StatusError(code, Some(reason))) == Some(m);
    ParseStatusLineComplete(d, reason);
    DigitsRoundTrip(code);
    assert HttpStatus.ValueOf(code).Ok?;
  }

  /** `findAll`, `findByQuery`, `findByCategories`, `findByTag`: the stream collected into a page. */
  function CollectPage(stream: Flux<Entry>): (r: Mono<BlogEntries>)
    ensures stream.error.None? <==> r.MonoValue?
    ensures r.MonoValue? ==> r.value.content == stream.items
    ensures stream.error.Some? ==> r == MonoError(stream.error.value)
  {
    MapMono(CollectList(stream), (items: seq<Entry>) => BlogEntries(items))
  }

  /** `findTags`, `findCategories`: the stream collected into a list. */
  function CollectStream<T>(stream: Flux<T>): (r: Mono<seq<T>>)
    ensures stream.error.None? <==> r.MonoValue?
    ensures r.MonoValue? ==> r.value == stream.items
  {
    CollectList(stream)
  }
}
