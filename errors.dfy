/** Go's `error` values as this layer sees them, and the `%q` quoting used to
    build the message of an unrecognized grant method. */
module Errors {

  /** Go's nilable results: `None` is `nil`. */
  datatype Option<T> = None | Some(value: T)

  /** A computation that either yields a value or fails with a Go error. */
  datatype Result<T> = Ok(value: T) | Err(error: Error)

  /** The errors the grant layer creates itself, plus the ones it only passes
      along (from the checker, from URL parsing, from the error handler). */
  datatype Error =
    | UserDataNotUserInfo
    | UnrecognizedClientType
    | UnrecognizedGrantMethod(grantMethod: string)
    | Foreign(message: string)

  /** The text `Error()` returns for each error. */
  function Message(e: Error): (s: string)
    ensures e.UnrecognizedGrantMethod? ==>
              && |s| == |GrantMethodPrefix| + |Quote(e.grantMethod)| + |GrantMethodSuffix|
              && s[..|GrantMethodPrefix|] == GrantMethodPrefix
              && s[|GrantMethodPrefix|..|s| - |GrantMethodSuffix|] == Quote(e.grantMethod)
              && s[|s| - |GrantMethodSuffix|..] == GrantMethodSuffix
  {
    match e
    case UserDataNotUserInfo => "the provided user data is not user.Info"
    case UnrecognizedClientType => "unrecognized OAuth client type"
    case UnrecognizedGrantMethod(m) => GrantMethodPrefix + Quote(m) + GrantMethodSuffix
    case Foreign(msg) => msg
  }

  const GrantMethodPrefix: string := "OAuth client grant method "
  const GrantMethodSuffix: string := " unrecognized"

  /** Characters that `%q` writes as a backslash escape. */
  predicate NeedsEscape(c: char) {
    c == '"' || c == '\\' || c == '\n' || c == '\r' || c == '\t'
  }

  /** A string that `%q` leaves unchanged between its quotes. */
  predicate Plain(s: string) {
    forall i :: 0 <= i < |s| ==> !NeedsEscape(s[i])
  }

  function EscapeChar(c: char): (r: string)
    ensures |r| == if NeedsEscape(c) then 2 else 1
  {
    match c
    case '"' => "\\\""
    case '\\' => "\\\\"
    case '\n' => "\\n"
    case '\r' => "\\r"
    case '\t' => "\\t"
    case _ => [c]
  }

  /** The body of a `%q` rendering, without its surrounding quotes. */
  function Escape(s: string): (r: string)
    ensures |r| >= |s|
  {
    if s == [] then [] else EscapeChar(s[0]) + Escape(s[1..])
  }

  /** `%q`: a double-quoted, escaped rendering of `s`. */
  function Quote(s: string): (r: string)
    ensures |r| == |Escape(s)| + 2 && r[0] == '"' && r[|r| - 1] == '"'
    ensures r[1..|r| - 1] == Escape(s)
  {
    "\"" + Escape(s) + "\""
  }

  function UnescapeChar(c: char): char {
    match c
    case 'n' => '\n'
    case 'r' => '\r'
    case 't' => '\t'
    case _ => c
  }

  /** Reads back the body of a quoted string. */
  function Unescape(s: string): string
  {
    if |s| >= 2 && s[0] == '\\' then [UnescapeChar(s[1])] + Unescape(s[2..])
    else if s == [] then []
    else [s[0]] + Unescape(s[1..])
  }

  /** Quoting loses nothing: the quoted body reads back as the original. */
  lemma {:induction false} UnescapeEscape(s: string)
    ensures Unescape(Escape(s)) == s
  {
    if s != [] {
      var c, rest := s[0], s[1..];
      UnescapeEscape(rest);
      var e := EscapeChar(c) + Escape(rest);
      assert Escape(s) == e;
      if NeedsEscape(c) {
        assert e[0] == '\\' && UnescapeChar(e[1]) == c && e[2..] == Escape(rest);
      } else {
        assert e[0] == c && e[1..] == Escape(rest);
      }
    }
  }

  /** A string without special characters appears verbatim between the quotes. */
  lemma {:induction false} EscapePlain(s: string)
    requires Plain(s)
    ensures Escape(s) == s
  {
    if s != [] {
      assert !NeedsEscape(s[0]);
      EscapePlain(s[1..]);
    }
  }

  /** Different methods give different messages, and a method without special
      characters appears verbatim, right after the opening quote. */
  lemma GrantMethodMessage(m: string, m': string)
    ensures var msg, p := Message(UnrecognizedGrantMethod(m)), |GrantMethodPrefix| + 1;
            Plain(m) ==> |msg| == p + |m| + 1 + |GrantMethodSuffix| && msg[p..p + |m|] == m
    ensures m != m' ==> Message(UnrecognizedGrantMethod(m)) != Message(UnrecognizedGrantMethod(m'))
  {
    var msg, p := Message(UnrecognizedGrantMethod(m)), |GrantMethodPrefix| + 1;
    var lo, q := |GrantMethodPrefix|, Quote(m);
    assert msg[lo..|msg| - |GrantMethodSuffix|] == q;
    if Plain(m) {
      EscapePlain(m);
      assert msg[p..p + |m|] == q[1..|q| - 1];
    }
    if m != m' {
      var msg', q' := Message(UnrecognizedGrantMethod(m')), Quote(m');
      assert msg'[lo..|msg'| - |GrantMethodSuffix|] == q';
      UnescapeEscape(m);
      UnescapeEscape(m');
      assert msg[p..|msg| - |GrantMethodSuffix| - 1] == q[1..|q| - 1] == Escape(m);
      assert msg'[p..|msg'| - |GrantMethodSuffix| - 1] == q'[1..|q'| - 1] == Escape(m');
    }
  }
}
