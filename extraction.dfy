/** `extractBookingData` of src/utils/extraction.js: the guard on the
    transcript, the clean-up of the model's reply before it is parsed, and
    the rule that every failure yields null. The chat completion and
    `JSON.parse` are outside the model and are passed in as functions. */
module Extraction {
  import opened Common

  /** The booking fields the extraction prompt asks for, plus `bookingTime`,
      which the empty booking of src/services/callService.js carries. A
      missing field and a JSON null are both None. */
  datatype Booking = Booking(
    name: Option<string>,
    date: Option<string>,
    time: Option<string>,
    bookingTime: Option<string>,
    guests: Option<int>,
    phoneNo: Option<string>,
    allergy: Option<string>,
    notes: Option<string>)

  const Fence: string := "```"
  const JsonFence: string := "```json"

  /** `s.replace(/pat/g, '')` for a literal pattern: occurrences are removed
      left to right without overlapping. */
  function RemoveAll(s: string, pat: string): (r: string)
    requires |pat| > 0
    ensures |r| <= |s|
    ensures pat[0] !in s ==> r == s
    decreases |s|
  {
    if |s| < |pat| then s
    else if s[..|pat|] == pat then RemoveAll(s[|pat|..], pat)
    else [s[0]] + RemoveAll(s[1..], pat)
  }

  /** No "```" anywhere in `s`. */
  ghost predicate NoFence(s: string) {
    forall i :: !InfixAt(Fence, s, i)
  }

  /** The characters `String.prototype.trim` removes: white space and line
      terminators as ECMAScript defines them. */
  const JsSpaces: set<char> := {
    '\t', '\n', '\U{B}', '\U{C}', '\r', ' ', '\U{A0}', '\U{1680}',
    '\U{2000}', '\U{2001}', '\U{2002}', '\U{2003}', '\U{2004}', '\U{2005}',
    '\U{2006}', '\U{2007}', '\U{2008}', '\U{2009}', '\U{200A}',
    '\U{2028}', '\U{2029}', '\U{202F}', '\U{205F}', '\U{3000}', '\U{FEFF}'}

  predicate IsJsSpace(c: char) {
    c in JsSpaces
  }

  /** Neither begins nor ends with white space. */
  predicate Trimmed(s: string) {
    s == [] || (!IsJsSpace(s[0]) && !IsJsSpace(s[|s| - 1]))
  }

  /** Every character of `x` is white space. */
  ghost predicate AllSpace(x: string) {
    forall i :: 0 <= i < |x| ==> IsJsSpace(x[i])
  }

  function TrimStart(s: string): (r: string)
    ensures |r| <= |s| && r == s[|s| - |r|..]
    ensures r == [] || !IsJsSpace(r[0])
  {
    if |s| > 0 && IsJsSpace(s[0]) then TrimStart(s[1..]) else s
  }

  function TrimEnd(s: string): (r: string)
    ensures |r| <= |s| && r == s[..|r|]
    ensures r == [] || !IsJsSpace(r[|r| - 1])
    ensures s == [] || !IsJsSpace(s[0]) ==> r == [] || !IsJsSpace(r[0])
  {
    if |s| > 0 && IsJsSpace(s[|s| - 1]) then TrimEnd(s[..|s| - 1]) else s
  }

  /** What `TrimStart` drops is white space. */
  lemma {:induction false} TrimStartDropsSpace(s: string)
    ensures AllSpace(s[..|s| - |TrimStart(s)|])
    decreases |s|
  {
    if |s| > 0 && IsJsSpace(s[0]) {
      var k := |s| - |TrimStart(s)|;
      TrimStartDropsSpace(s[1..]);
      assert s[..k] == [s[0]] + s[1..][..k - 1];
    }
  }

  /** What `TrimEnd` drops is white space. */
  lemma {:induction false} TrimEndDropsSpace(s: string)
    ensures AllSpace(s[|TrimEnd(s)|..])
    decreases |s|
  {
    if |s| > 0 && IsJsSpace(s[|s| - 1]) {
      var k := |TrimEnd(s)|;
      TrimEndDropsSpace(s[..|s| - 1]);
      assert s[k..] == s[..|s| - 1][k..] + [s[|s| - 1]];
    }
  }

  /** `s.trim()`: no white space at either end, and a trimmed text is kept. */
  function Trim(s: string): (r: string)
    ensures Trimmed(r)
    ensures Trimmed(s) ==> r == s
  {
    TrimEnd(TrimStart(s))
  }

  /** Where `Trim`'s result starts in `s`. */
  function TrimOffset(s: string): nat {
    |s| - |TrimStart(s)|
  }

  /** `Trim` removes white space at the two ends and nothing else: its result
      is the piece of `s` at `TrimOffset(s)`, with only white space before
      and after it. */
  lemma TrimRemovesOnlySpace(s: string)
    ensures var a := TrimOffset(s);
            && InfixAt(Trim(s), s, a)
            && AllSpace(s[..a]) && AllSpace(s[a + |Trim(s)|..])
  {
    var t := TrimStart(s);
    var r := TrimEnd(t);
    var a := |s| - |t|;
    TrimStartDropsSpace(s);
    TrimEndDropsSpace(t);
    assert s[a..a + |r|] == t[..|r|] == r;
    assert s[a + |r|..] == t[|r|..];
  }

  /** Only white space comes before either position, and neither holds
      white space, so they are the same position. */
  lemma SameFirstNonSpace(s: string, a: int, b: int)
    requires 0 <= a < |s| && 0 <= b < |s|
    requires !IsJsSpace(s[a]) && !IsJsSpace(s[b])
    requires AllSpace(s[..a]) && AllSpace(s[..b])
    ensures a == b
  {
  }

  lemma SameLastNonSpace(s: string, a: int, b: int)
    requires 0 <= a < |s| && 0 <= b < |s|
    requires !IsJsSpace(s[a]) && !IsJsSpace(s[b])
    requires AllSpace(s[a + 1..]) && AllSpace(s[b + 1..])
    ensures a == b
  {
  }

  /** White space before and from a position is white space throughout. */
  lemma SpaceOnBothSides(s: string, a: int, i: int)
    requires 0 <= a <= |s| && AllSpace(s[..a]) && AllSpace(s[a..])
    requires 0 <= i < |s|
    ensures IsJsSpace(s[i])
  {
    if i < a {
      assert s[..a][i] == s[i];
    } else {
      assert s[a..][i - a] == s[i];
    }
  }

  /** A trimmed piece of `s` with only white space around it is unique, so
      `Trim` is the one such piece. */
  lemma TrimIsTheTrimmedPiece(s: string, x: string, a: int)
    requires Trimmed(x) && InfixAt(x, s, a)
    requires AllSpace(s[..a]) && AllSpace(s[a + |x|..])
    ensures x == Trim(s)
  {
    var r := Trim(s);
    var b := TrimOffset(s);
    TrimRemovesOnlySpace(s);
    if x == [] && r != [] {
      SpaceOnBothSides(s, a, b);
    } else if x != [] && r == [] {
      SpaceOnBothSides(s, b, a);
    } else if x != [] {
      assert s[a] == x[0] && s[b] == r[0];
      SameFirstNonSpace(s, a, b);
      assert s[a + |x| - 1] == x[|x| - 1] && s[b + |r| - 1] == r[|r| - 1];
      SameLastNonSpace(s, a + |x| - 1, b + |r| - 1);
    }
  }

  /** The clean-up applied to the model's reply before parsing: what is left
      has no fence and no surrounding white space. */
  function Sanitize(raw: string): (r: string)
    ensures NoFence(r)
    ensures Trimmed(r)
  {
    var unfenced := RemoveAll(RemoveAll(raw, JsonFence), Fence);
    RemovingFencesLeavesNone(RemoveAll(raw, JsonFence));
    TrimKeepsNoFence(unfenced);
    Trim(unfenced)
  }

  /** A character other than '`' at the front survives the removal of fences. */
  lemma FirstCharKept(s: string)
    requires |s| > 0 && s[0] != '`'
    ensures var r := RemoveAll(s, Fence); |r| > 0 && r[0] == s[0]
  {
  }

  /** Putting a character in front of a fence-free string creates a fence
      only if it and the next two characters are all backticks. */
  lemma ConsNoFence(c: char, t: string)
    requires NoFence(t)
    requires c != '`' || |t| < 2 || t[0] != '`' || t[1] != '`'
    ensures NoFence([c] + t)
  {
    var s := [c] + t;
    forall i ensures !InfixAt(Fence, s, i) {
      if i == 0 && |s| >= 3 {
        assert s[0..3] == [c, t[0], t[1]];
      } else if 1 <= i <= |s| - 3 {
        assert s[i..i + 3] == t[i - 1..i + 2];
        assert !InfixAt(Fence, t, i - 1);
      }
    }
  }

  /** Removing every "```" leaves none behind: a run of backticks is cut
      down to fewer than three, and runs never join. */
  lemma {:induction false} RemovingFencesLeavesNone(s: string)
    ensures NoFence(RemoveAll(s, Fence))
    decreases |s|
  {
    var r := RemoveAll(s, Fence);
    if |s| < 3 {
      assert r == s;
      forall i ensures !InfixAt(Fence, s, i) { }
    } else if s[..3] == Fence {
      RemovingFencesLeavesNone(s[3..]);
    } else {
      var t := s[1..];
      var rt := RemoveAll(t, Fence);
      assert r == [s[0]] + rt;
      RemovingFencesLeavesNone(t);
      if s[0] == '`' {
        if t[0] != '`' {
          FirstCharKept(t);
        } else {
          // s starts "``" but not "```", so t starts "`" followed by another character
          assert t[1] != '`';
          if |t| < 3 {
            assert rt == t;
          } else {
            assert t[..3] != Fence;
            assert rt == [t[0]] + RemoveAll(t[1..], Fence);
            FirstCharKept(t[1..]);
          }
        }
      }
      ConsNoFence(s[0], rt);
    }
  }

  /** Any piece of a fence-free string is fence-free. */
  lemma NoFenceInPiece(s: string, a: nat, n: nat)
    requires NoFence(s) && a + n <= |s|
    ensures NoFence(s[a..a + n])
  {
    var p := s[a..a + n];
    forall i ensures !InfixAt(Fence, p, i) {
      if 0 <= i <= |p| - 3 {
        assert p[i..i + 3] == [p[i], p[i + 1], p[i + 2]];
        assert s[a + i..a + i + 3] == [s[a + i], s[a + i + 1], s[a + i + 2]];
        assert !InfixAt(Fence, s, a + i);
      }
    }
  }

  lemma TrimKeepsNoFence(u: string)
    requires NoFence(u)
    ensures NoFence(Trim(u))
  {
    TrimRemovesOnlySpace(u);
    NoFenceInPiece(u, TrimOffset(u), |Trim(u)|);
  }

  /** A text in which the pattern never occurs is left as it is. */
  lemma {:induction false} RemoveAllKeepsPatternFree(s: string, pat: string)
    requires |pat| > 0 && !IsInfix(pat, s)
    ensures RemoveAll(s, pat) == s
    decreases |s|
  {
    if |s| >= |pat| {
      assert !InfixAt(pat, s, 0);
      assert !IsInfix(pat, s[1..]) by {
        forall i ensures !InfixAt(pat, s[1..], i) {
          if 0 <= i <= |s| - 1 - |pat| {
            assert s[1..][i..i + |pat|] == s[i + 1..i + 1 + |pat|];
            assert !InfixAt(pat, s, i + 1);
          }
        }
      }
      RemoveAllKeepsPatternFree(s[1..], pat);
    }
  }

  /** One step of the removal over a character that cannot start the pattern. */
  lemma RemoveAllKeepsFirst(c: char, rest: string, pat: string)
    requires |pat| > 0 && c != pat[0]
    ensures RemoveAll([c] + rest, pat) == [c] + RemoveAll(rest, pat)
  {
    var s := [c] + rest;
    assert s[1..] == rest;
    if |s| >= |pat| {
      assert s[..|pat|][0] != pat[0];
    } else {
      assert RemoveAll(rest, pat) == rest;
    }
  }

  lemma SkipOne(c: char, y: string, t: string, pat: string)
    requires |pat| > 0 && c != pat[0]
    requires RemoveAll(y + t, pat) == y + RemoveAll(t, pat)
    ensures RemoveAll([c] + y + t, pat) == [c] + y + RemoveAll(t, pat)
  {
    assert [c] + y + t == [c] + (y + t);
    RemoveAllKeepsFirst(c, y + t, pat);
  }

  /** Characters that cannot start the pattern pass through unchanged, and
      the removal goes on after them. */
  lemma {:induction false} RemoveAllSkips(x: string, t: string, pat: string)
    requires |pat| > 0 && pat[0] !in x
    ensures RemoveAll(x + t, pat) == x + RemoveAll(t, pat)
    decreases |x|
  {
    if x == [] {
      assert x + t == t;
    } else {
      assert x == [x[0]] + x[1..];
      RemoveAllSkips(x[1..], t, pat);
      SkipOne(x[0], x[1..], t, pat);
    }
  }

  /** The wrapper the clean-up is for: a reply "```json ... ```" whose body
      has no backtick is reduced to its trimmed body. */
  lemma SanitizeUnwrapsJsonFence(body: string)
    requires '`' !in body
    ensures Sanitize(JsonFence + body + Fence) == Trim(body)
  {
    assert JsonFence[0] == '`' && Fence[0] == '`' && |Fence| < |JsonFence|;
    Unwrap(JsonFence, body, Fence);
  }

  /** Removing the opening marker and then the closing one from
      `open + body + close` leaves `body`, when no character of `body` can
      start either marker and the closing marker is the shorter. */
  lemma Unwrap(open: string, body: string, close: string)
    requires 0 < |close| < |open|
    requires open[0] !in body && close[0] !in body
    ensures RemoveAll(RemoveAll(open + body + close, open), close) == body
  {
    var raw := open + body + close;
    assert raw[..|open|] == open;
    assert raw[|open|..] == body + close;
    RemoveAllSkips(body, close, open);
    assert RemoveAll(raw, open) == body + close;
    RemoveAllSkips(body, close, close);
    assert close[..|close|] == close && close[|close|..] == [];
    assert body + [] == body;
  }

  /** A reply without backticks and without surrounding white space is
      passed to the parser unchanged. */
  lemma CleanReplyUnchanged(raw: string)
    requires '`' !in raw
    requires Trimmed(raw)
    ensures Sanitize(raw) == raw
  {
  }

  /** The extraction as a whole. `complete` answers the chat request for a
      transcript (None: the request failed or gave no content); `parse` is
      `JSON.parse` (None: it threw). Every failure becomes None. */
  function ExtractBookingData(transcript: Option<string>,
                              complete: string -> Option<string>,
                              parse: string -> Option<Booking>): (r: Option<Booking>)
    ensures !TruthyStr(transcript) ==> r == None
    ensures TruthyStr(transcript) && complete(transcript.value).None? ==> r == None
    ensures TruthyStr(transcript) && complete(transcript.value).Some? ==>
              r == parse(Sanitize(complete(transcript.value).value))
  {
    if !TruthyStr(transcript) then None
    else match complete(transcript.value)
      case None => None
      case Some(raw) => parse(Sanitize(raw))
  }

  /** A falsy transcript is answered without consulting the model: the result
      is the same whatever the model would say. */
  lemma FalsyTranscriptSkipsModel(transcript: Option<string>,
                                  complete1: string -> Option<string>,
                                  complete2: string -> Option<string>,
                                  parse: string -> Option<Booking>)
    requires !TruthyStr(transcript)
    ensures ExtractBookingData(transcript, complete1, parse) == ExtractBookingData(transcript, complete2, parse)
  {
  }

  /** The parser sees the model's reply cleaned up, and whatever it yields,
      null included, is the result. */
  lemma ParsedFromCleanText(transcript: Option<string>,
                            complete: string -> Option<string>,
                            parse: string -> Option<Booking>)
    requires TruthyStr(transcript) && complete(transcript.value).Some?
    ensures var s := Sanitize(complete(transcript.value).value);
            && NoFence(s) && Trimmed(s)
            && ExtractBookingData(transcript, complete, parse) == parse(s)
  {
  }

  /** A reply in the expected "```json" wrapper is parsed from its trimmed body. */
  lemma FencedReplyParsedFromBody(transcript: Option<string>, body: string,
                                  complete: string -> Option<string>,
                                  parse: string -> Option<Booking>)
    requires TruthyStr(transcript) && complete(transcript.value) == Some(JsonFence + body + Fence)
    requires '`' !in body
    ensures ExtractBookingData(transcript, complete, parse) == parse(Trim(body))
  {
    SanitizeUnwrapsJsonFence(body);
  }
}
