/** SIP Call-IDs: the raw form is what the reservation sets hold, the sanitised form keys
    the live index. */
module CallIds {

  /** The characters a trim removes (Unicode White_Space). */
  predicate IsSpace(c: char) {
    || '\t' <= c <= '\r' || c == ' ' || c == '\U{0085}' || c == '\U{00A0}' || c == '\U{1680}'
    || '\U{2000}' <= c <= '\U{200A}' || c == '\U{2028}' || c == '\U{2029}' || c == '\U{202F}'
    || c == '\U{205F}' || c == '\U{3000}'
  }

  function TrimLeft(s: string): string {
    if s != "" && IsSpace(s[0]) then TrimLeft(s[1..]) else s
  }

  function TrimRight(s: string): string {
    if s != "" && IsSpace(s[|s| - 1]) then TrimRight(s[..|s| - 1]) else s
  }

  function TrimSpace(s: string): string {
    TrimRight(TrimLeft(s))
  }

  /** Everything before the first `c`, or all of `s`. */
  function UpTo(s: string, c: char): string {
    if s == "" || s[0] == c then "" else [s[0]] + UpTo(s[1..], c)
  }

  function SanitizeCallID(raw: string): string {
    UpTo(TrimSpace(raw), '@')
  }

  /** The first '@' of `s` is its `i`-th character. */
  predicate HostAt(s: string, i: nat) {
    i < |s| && s[i] == '@' && '@' !in s[..i]
  }

  /** No blank stands directly before the host part. */
  predicate Clean(raw: string) {
    var t := TrimSpace(raw);
    !exists i :: 0 < i < |t| && HostAt(t, i) && IsSpace(t[i - 1])
  }

  lemma {:induction false} UpToHasNone(s: string, c: char)
    ensures c !in UpTo(s, c)
    ensures c !in s ==> UpTo(s, c) == s
  {
    if s != "" && s[0] != c {
      UpToHasNone(s[1..], c);
      assert s == [s[0]] + s[1..];
    }
  }

  lemma {:induction false} UpToShrinks(s: string, c: char)
    ensures forall d :: d in UpTo(s, c) ==> d in s
  {
    if s != "" && s[0] != c {
      UpToShrinks(s[1..], c);
    }
  }

  lemma SanitizedHasNoHost(raw: string)
    ensures '@' !in SanitizeCallID(raw)
  {
    UpToHasNone(TrimSpace(raw), '@');
  }

  lemma {:induction false} UpToIs(s: string, c: char, i: nat)
    requires i < |s| && s[i] == c && c !in s[..i]
    ensures UpTo(s, c) == s[..i]
  {
    if i > 0 {
      assert s[0] in s[..i];
      assert s[1..][..i - 1] == s[..i][1..];
      UpToIs(s[1..], c, i - 1);
      assert s[..i] == [s[0]] + s[1..][..i - 1];
    }
  }

  lemma {:induction false} FirstIndex(s: string, c: char) returns (i: nat)
    requires c in s
    ensures i < |s| && s[i] == c && c !in s[..i]
  {
    i := 0;
    while s[i] != c
      invariant i < |s| && c !in s[..i]
      decreases |s| - i
    {
      assert s[..i + 1] == s[..i] + [s[i]];
      assert s == s[..i + 1] + s[i + 1..];
      i := i + 1;
    }
  }

  /** A trim leaves a string alone exactly when neither end is a blank. */
  lemma TrimFixes(s: string)
    ensures TrimSpace(s) == s <==> s == "" || (!IsSpace(s[0]) && !IsSpace(s[|s| - 1]))
  {
    if s != "" {
      TrimLeftLength(s);
      TrimRightLength(TrimLeft(s));
      if IsSpace(s[0]) {
        TrimLeftLength(s[1..]);
      } else if IsSpace(s[|s| - 1]) {
        TrimRightLength(s[..|s| - 1]);
      }
    }
  }

  lemma {:induction false} TrimLeftLength(s: string)
    ensures |TrimLeft(s)| <= |s|
    ensures TrimLeft(s) != "" ==> !IsSpace(TrimLeft(s)[0])
  {
    if s != "" && IsSpace(s[0]) {
      TrimLeftLength(s[1..]);
    }
  }

  lemma {:induction false} TrimRightLength(s: string)
    ensures |TrimRight(s)| <= |s|
    ensures TrimRight(s) != "" ==> !IsSpace(TrimRight(s)[|TrimRight(s)| - 1]) && TrimRight(s)[0] == s[0]
    ensures s != "" && !IsSpace(s[0]) ==> TrimRight(s) != ""
  {
    if s != "" && IsSpace(s[|s| - 1]) {
      TrimRightLength(s[..|s| - 1]);
    }
  }

  lemma TrimmedEnds(raw: string)
    ensures var t := TrimSpace(raw); t != "" ==> !IsSpace(t[0]) && !IsSpace(t[|t| - 1])
  {
    TrimLeftLength(raw);
    TrimRightLength(TrimLeft(raw));
  }

  /** Sanitising is idempotent on an id exactly when no blank precedes its host part. */
  lemma SanitizeIdempotentIffClean(raw: string)
    ensures SanitizeCallID(SanitizeCallID(raw)) == SanitizeCallID(raw) <==> Clean(raw)
  {
    var t := TrimSpace(raw);
    var s := SanitizeCallID(raw);
    SanitizedHasNoHost(raw);
    TrimShrinks(s);
    UpToHasNone(TrimSpace(s), '@');
    assert SanitizeCallID(s) == TrimSpace(s);
    TrimFixes(s);
    TrimmedEnds(raw);
    if '@' in t {
      var i := FirstIndex(t, '@');
      UpToIs(t, '@', i);
      assert HostAt(t, i) && s == t[..i];
      forall k: nat | k < |t| && k != i ensures !HostAt(t, k) {
        if i < k {
          assert t[..k][i] == '@';
        } else {
          assert t[..i][k] == t[k];
        }
      }
    } else {
      UpToHasNone(t, '@');
    }
  }

  /** The sanitised form of any id is empty or starts with a character that is no blank, so
      sanitising it again never empties it. */
  lemma SanitizedStays(raw: string)
    ensures SanitizeCallID(raw) != "" ==> SanitizeCallID(SanitizeCallID(raw)) != ""
  {
    var s := SanitizeCallID(raw);
    if s != "" {
      TrimmedEnds(raw);
      assert s[0] == TrimSpace(raw)[0];
      TrimLeftLength(s);
      TrimRightLength(s);
      assert TrimLeft(s) == s;
      SanitizedHasNoHost(raw);
      TrimShrinks(s);
      UpToHasNone(TrimSpace(s), '@');
    }
  }

  lemma {:induction false} TrimLeftShrinks(s: string)
    ensures forall c :: c in TrimLeft(s) ==> c in s
    ensures (forall c :: c in s ==> !IsSpace(c)) ==> TrimLeft(s) == s
  {
    if s != "" && IsSpace(s[0]) {
      TrimLeftShrinks(s[1..]);
      assert s[0] in s;
    }
  }

  lemma {:induction false} TrimRightShrinks(s: string)
    ensures forall c :: c in TrimRight(s) ==> c in s
    ensures (forall c :: c in s ==> !IsSpace(c)) ==> TrimRight(s) == s
  {
    if s != "" && IsSpace(s[|s| - 1]) {
      TrimRightShrinks(s[..|s| - 1]);
      assert s[|s| - 1] in s;
    }
  }

  lemma TrimShrinks(s: string)
    ensures forall c :: c in TrimSpace(s) ==> c in s
    ensures (forall c :: c in s ==> !IsSpace(c)) ==> TrimSpace(s) == s
  {
    TrimLeftShrinks(s);
    TrimRightShrinks(TrimLeft(s));
  }

  /** A Call-ID without blanks, the only kind section 25.1 of RFC 3261 allows, is clean. */
  lemma BlankFreeIsClean(raw: string)
    requires forall c :: c in raw ==> !IsSpace(c)
    ensures Clean(raw)
    ensures '@' !in raw <==> SanitizeCallID(raw) == raw
  {
    TrimShrinks(raw);
    UpToHasNone(raw, '@');
    forall i: nat | 0 < i && HostAt(raw, i) ensures !IsSpace(raw[i - 1]) {
      assert raw[i - 1] in raw;
    }
    if '@' in raw {
      SanitizedHasNoHost(raw);
    }
  }

  /** With a blank before the host part, sanitising twice differs from sanitising once. */
  lemma BlankBeforeHost()
    ensures SanitizeCallID("a @h") == "a " && SanitizeCallID("a ") == "a"
    ensures !Clean("a @h")
  {
    var t := "a @h";
    assert TrimLeft("a @h") == "a @h";
    assert TrimRight("a @h") == "a @h";
    assert UpTo("a @h", '@') == "a " by {
      assert "a @h"[1..] == " @h";
      assert " @h"[1..] == "@h";
      assert UpTo("@h", '@') == "";
      assert UpTo(" @h", '@') == " ";
    }
    assert TrimLeft("a ") == "a ";
    assert TrimRight("a ") == "a" by {
      assert "a "[..1] == "a";
      assert TrimRight("a") == "a";
    }
    assert UpTo("a", '@') == "a" by {
      assert "a"[1..] == "";
    }
    assert HostAt(t, 2) && IsSpace(t[2 - 1]);
  }

  /** A trim takes blanks off both ends and nothing else. */
  lemma {:induction false} TrimLeftCuts(s: string) returns (n: nat)
    ensures n <= |s| && TrimLeft(s) == s[n..] && forall i :: 0 <= i < n ==> IsSpace(s[i])
  {
    n := 0;
    if s != "" && IsSpace(s[0]) {
      var m := TrimLeftCuts(s[1..]);
      n := m + 1;
      assert forall i :: 0 < i < n ==> s[i] == s[1..][i - 1];
    }
  }

  lemma {:induction false} TrimRightCuts(s: string) returns (n: nat)
    ensures n <= |s| && TrimRight(s) == s[..n] && forall i :: n <= i < |s| ==> IsSpace(s[i])
  {
    n := |s|;
    if s != "" && IsSpace(s[|s| - 1]) {
      n := TrimRightCuts(s[..|s| - 1]);
    }
  }

  lemma TrimCuts(raw: string) returns (lo: nat, hi: nat)
    ensures lo <= hi <= |raw| && TrimSpace(raw) == raw[lo..hi]
    ensures forall i :: 0 <= i < lo || hi <= i < |raw| ==> IsSpace(raw[i])
    ensures lo < hi ==> !IsSpace(raw[lo]) && !IsSpace(raw[hi - 1])
  {
    lo := TrimLeftCuts(raw);
    var n := TrimRightCuts(TrimLeft(raw));
    hi := lo + n;
    assert TrimSpace(raw) == raw[lo..hi];
    assert forall i :: n <= i < |raw[lo..]| ==> raw[lo..][i] == raw[lo + i];
    forall i | hi <= i < |raw| ensures IsSpace(raw[i]) {
      assert raw[i] == raw[lo..][i - lo];
    }
    TrimmedEnds(raw);
  }

  /** Blank before `lo` and from `hi` on, not blank at either end between; the first '@' between is at `at`, if any. */
  ghost predicate IsCut(raw: string, lo: int, at: int, hi: int) {
    && 0 <= lo <= at <= hi <= |raw|
    && (forall i :: 0 <= i < lo || hi <= i < |raw| ==> IsSpace(raw[i]))
    && (lo < hi ==> !IsSpace(raw[lo]) && !IsSpace(raw[hi - 1]))
    && '@' !in raw[lo..at] && (at == hi || raw[at] == '@')
  }

  /** The sanitised id is a stretch of the raw one: what is before it is blank, and what is after it is blank but for a
      host part that the first '@' opens; the stretch neither begins with a blank nor, without a host part, ends with
      one. */
  lemma SanitizeMeans(raw: string)
    ensures exists lo, at, hi :: IsCut(raw, lo, at, hi) && SanitizeCallID(raw) == raw[lo..at]
  {
    var lo, hi := TrimCuts(raw);
    var t := TrimSpace(raw);
    if '@' in t {
      var k := FirstIndex(t, '@');
      UpToIs(t, '@', k);
      assert t[..k] == raw[lo..lo + k];
      assert IsCut(raw, lo, lo + k, hi);
    } else {
      UpToHasNone(t, '@');
      assert IsCut(raw, lo, hi, hi);
    }
  }
}
