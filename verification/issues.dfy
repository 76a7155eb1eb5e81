/** Issues, issue paths and the messages zod's default error map produces. */
module Issues {
  import opened Values

  /** One step of an issue path: an object key or an array position. */
  datatype PathSeg = Key(name: string) | Index(index: nat)

  /** One validation failure: where it is and what is wrong there. */
  datatype Issue = Issue(path: seq<PathSeg>, message: string)

  /** The outcome of parsing one value: the parsed value, or every issue found. */
  datatype Result<+T> = Success(value: T) | Failure(issues: seq<Issue>)

  /** The issues of a result; none for a success. */
  function Errs<T>(r: Result<T>): seq<Issue>
  {
    match r
    case Success(_) => []
    case Failure(issues) => issues
  }

  /** Every issue is reported at `path` or below it. */
  ghost predicate AllUnder(issues: seq<Issue>, path: seq<PathSeg>)
  {
    forall x :: x in issues ==> path <= x.path
  }

  /** The kinds of problem the schemas used here can report. */
  datatype Problem =
    | Required                                         // a required key is absent
    | WrongType(expected: string, received: string)    // present, but of the wrong JSON type
    | BadEnum(options: seq<string>, received: string)  // a string outside the enumeration
    | BadUrl                                           // a string that does not parse as a URL
    | BadLiteral(expected: string)                     // anything but the expected literal
    | TooSmall(minimum: nat)                           // an array shorter than its minimum

  /** No two issues of the list sit at the same path. */
  ghost predicate DistinctPaths(issues: seq<Issue>)
  {
    forall k, l :: 0 <= k < l < |issues| ==> issues[k].path != issues[l].path
  }

  function DigitChar(d: nat): char
    requires d < 10
  {
    "0123456789"[d]
  }

  /** Reference reading of a decimal digit string, most significant first. */
  function DigitsValue(s: string): int
    decreases |s|
  {
    if |s| == 0 then 0 else DigitsValue(s[..|s| - 1]) * 10 + (s[|s| - 1] as int - '0' as int)
  }

  /** Decimal rendering of a natural number, as `String(n)` gives it. */
  function NatToString(n: nat): (s: string)
    ensures |s| > 0
    ensures forall k :: 0 <= k < |s| ==> '0' <= s[k] <= '9'
    decreases n
  {
    if n < 10 then [DigitChar(n)] else NatToString(n / 10) + [DigitChar(n % 10)]
  }

  /** The rendering is the decimal numeral of `n`: no leading zero, and
      reading its digits back gives `n`. */
  lemma {:induction false} NatToStringReadsBack(n: nat)
    ensures |NatToString(n)| > 1 ==> NatToString(n)[0] != '0'
    ensures DigitsValue(NatToString(n)) == n
    decreases n
  {
    if n >= 10 {
      NatToStringReadsBack(n / 10);
      var front := NatToString(n / 10);
      var s := NatToString(n);
      assert s == front + [DigitChar(n % 10)];
      assert s[..|s| - 1] == front;
      assert s[0] == front[0];
      assert DigitChar(n % 10) as int - '0' as int == n % 10;
    }
  }

  function Quoted(s: string): string
  {
    "'" + s + "'"
  }

  /** The options of an enumeration, each quoted, separated by " | ". */
  function QuotedOptions(options: seq<string>): string
    decreases |options|
  {
    if |options| == 0 then ""
    else if |options| == 1 then Quoted(options[0])
    else Quoted(options[0]) + " | " + QuotedOptions(options[1..])
  }

  /** The message text of a problem. Every message is non-empty. */
  function Message(p: Problem): (m: string)
    ensures |m| > 0
  {
    match p
    case Required => "Required"
    case WrongType(expected, received) => "Expected " + expected + ", received " + received
    case BadEnum(options, received) =>
      "Invalid enum value. Expected " + QuotedOptions(options) + ", received " + Quoted(received)
    case BadUrl => "Invalid url"
    case BadLiteral(expected) => "Invalid literal value, expected " + expected
    case TooSmall(minimum) => "Array must contain at least " + NatToString(minimum) + " element(s)"
  }

  function SegText(s: PathSeg): string
  {
    match s
    case Key(name) => name
    case Index(i) => NatToString(i)
  }

  /** The path's steps joined by ".", as `path.join('.')` does. */
  function JoinPath(p: seq<PathSeg>): (joined: string)
    ensures joined == "" <==> p == [] || p == [Key("")]
    decreases |p|
  {
    if |p| == 0 then ""
    else if |p| == 1 then SegText(p[0])
    else SegText(p[0]) + "." + JoinPath(p[1..])
  }

  /** The joined path, or the marker "(root)" when the join is empty: for
      the empty path, and for the one made of a single empty key. */
  function PathLabel(p: seq<PathSeg>): (shown: string)
    ensures |shown| > 0
    ensures p == [] || p == [Key("")] ==> shown == "(root)"
    ensures p != [] && p != [Key("")] ==> shown == JoinPath(p)
    ensures |p| == 1 && p[0].Key? && p[0].name != "" ==> shown == p[0].name
    ensures |p| == 1 && p[0].Index? ==> shown == NatToString(p[0].index)
  {
    var joined := JoinPath(p);
    if joined == "" then "(root)" else joined
  }

  /** No issue of the list occurs twice. */
  ghost predicate NoRepeats(issues: seq<Issue>)
  {
    forall k, l :: 0 <= k < l < |issues| ==> issues[k] != issues[l]
  }

  /** In "<c>: <word> <rest>" a different space-free word gives a different string. */
  lemma FirstWordSeparates(c: string, a: string, b: string, x: string, y: string)
    requires ' ' !in a && ' ' !in b && a != b
    ensures c + ": " + a + " " + x != c + ": " + b + " " + y
  {
    var s := c + ": " + a + " " + x;
    var t := c + ": " + b + " " + y;
    var n := |c| + 2;
    if |a| < |b| {
      assert s[n + |a|] != t[n + |a|];
    } else if |b| < |a| {
      assert s[n + |b|] != t[n + |b|];
    } else {
      var k :| 0 <= k < |a| && a[k] != b[k];
      assert s[n + k] != t[n + k];
    }
  }
}

module Merging {
  import opened Issues

  /** How zod merges the parses of an array's elements: the array passes
      exactly when every element does, its value is the elements' values in
      order, and on failure every issue of every element is kept, nothing
      more. */
  function MergeAll<T>(rs: seq<Result<T>>): (r: Result<seq<T>>)
    ensures r.Success? <==> forall i :: 0 <= i < |rs| ==> rs[i].Success?
    ensures r.Success? ==> |r.value| == |rs| && forall i :: 0 <= i < |rs| ==> rs[i] == Success(r.value[i])
    ensures forall i, x :: 0 <= i < |rs| && x in Errs(rs[i]) ==> x in Errs(r)
    ensures forall x :: x in Errs(r) ==> exists i :: 0 <= i < |rs| && x in Errs(rs[i])
    decreases |rs|
  {
    if |rs| == 0 then Success([])
    else
      var n := |rs| - 1;
      var front := MergeAll(rs[..n]);
      assert forall i :: 0 <= i < n ==> rs[..n][i] == rs[i];
      if front.Success? && rs[n].Success? then
        var r := Success(front.value + [rs[n].value]);
        assert forall i :: 0 <= i < n ==> rs[i] == Success(r.value[i]);
        r
      else
        var r := Failure(Errs(front) + Errs(rs[n]));
        assert forall x :: x in Errs(r) ==> x in Errs(front) || x in Errs(rs[n]);
        r
  }
}
