/** The number parsers of the import form: a numeric range, and free text. */
module Parsers {
  import opened Basics
  import opened Decimals
  import CallIds
  import Prefixes

  const MAX_ROWS := 10_000
  const MAX_INT64 := 0x7FFF_FFFF_FFFF_FFFF

  function OnlyDigits(s: string): (d: string)
    ensures Digits(d) && |d| <= |s|
  {
    if s == "" then ""
    else if IsDigit(s[0]) then [s[0]] + OnlyDigits(s[1..])
    else OnlyDigits(s[1..])
  }

  predicate Plausible(digits: string) {
    6 <= |digits| <= 15
  }

  predicate LooksLikeE164(s: string) {
    Plausible(OnlyDigits(Prefixes.TrimPlus(CallIds.TrimSpace(s))))
  }

  function NormalizeE164(s: string): string {
    var digits := OnlyDigits(Prefixes.TrimPlus(CallIds.TrimSpace(s)));
    if LooksLikeE164(digits) then digits else ""
  }

  // ---------- what a token normalises to ----------

  lemma {:induction false} DigitsOfDigits(s: string)
    requires Digits(s)
    ensures OnlyDigits(s) == s
  {
    if s != "" {
      assert IsDigit(s[0]);
      DigitsOfDigits(s[1..]);
      assert s == [s[0]] + s[1..];
    }
  }

  lemma {:induction false} DigitsOfConcat(a: string, b: string)
    ensures OnlyDigits(a + b) == OnlyDigits(a) + OnlyDigits(b)
  {
    if a == "" {
      assert a + b == b;
    } else {
      DigitsOfConcat(a[1..], b);
      assert (a + b)[1..] == a[1..] + b && (a + b)[0] == a[0];
    }
  }

  /** The digits of a string, in their order. */
  lemma DigitsMean(a: string, c: char, b: string)
    ensures OnlyDigits(a + [c] + b) == OnlyDigits(a) + (if '0' <= c <= '9' then [c] else "") + OnlyDigits(b)
    ensures OnlyDigits("") == ""
  {
    DigitsOfConcat(a + [c], b);
    DigitsOfConcat(a, [c]);
    assert [c][1..] == "";
  }

  lemma {:induction false} TrimRightKeepsDigits(s: string)
    ensures OnlyDigits(CallIds.TrimRight(s)) == OnlyDigits(s)
  {
    if s != "" && CallIds.IsSpace(s[|s| - 1]) {
      var head, last := s[..|s| - 1], s[|s| - 1];
      TrimRightKeepsDigits(head);
      DigitsOfConcat(head, [last]);
      assert s == head + [last] && OnlyDigits([last]) == OnlyDigits([last][1..]);
    }
  }

  lemma {:induction false} TrimLeftKeepsDigits(s: string)
    ensures OnlyDigits(CallIds.TrimLeft(s)) == OnlyDigits(s)
  {
    if s != "" && CallIds.IsSpace(s[0]) {
      TrimLeftKeepsDigits(s[1..]);
    }
  }

  /** Trimming never costs a digit. */
  lemma CleaningKeepsDigits(s: string)
    ensures OnlyDigits(Prefixes.TrimPlus(CallIds.TrimSpace(s))) == OnlyDigits(s)
  {
    TrimLeftKeepsDigits(s);
    TrimRightKeepsDigits(CallIds.TrimLeft(s));
  }

  lemma DigitsAreClean(s: string)
    requires Digits(s)
    ensures CallIds.TrimSpace(s) == s && Prefixes.TrimPlus(s) == s
  {
    forall c | c in s ensures !CallIds.IsSpace(c) {
      var i :| 0 <= i < |s| && s[i] == c;
      assert IsDigit(s[i]);
    }
    CallIds.TrimShrinks(s);
    assert s != "" ==> IsDigit(s[0]);
  }

  /** A token is accepted exactly when it holds 6 to 15 digits (the limit of section 6 of ITU-T
      E.164), whatever else it holds, and it becomes those digits in their order. */
  lemma AcceptedIffDigitCount(s: string)
    ensures NormalizeE164(s) == if Plausible(OnlyDigits(s)) then OnlyDigits(s) else ""
    ensures LooksLikeE164(s) <==> Plausible(OnlyDigits(s))
    ensures NormalizeE164(NormalizeE164(s)) == NormalizeE164(s)
  {
    var d := OnlyDigits(s);
    CleaningKeepsDigits(s);
    CleaningKeepsDigits(d);
    DigitsOfDigits(d);
    CleaningKeepsDigits("");
  }

  // ---------- lines and tokens ----------

  /** Split at every newline; there is always a last line, possibly empty. */
  function Lines(text: string): (lines: seq<string>)
    ensures |lines| > 0
  {
    if text == "" then [""]
    else if text[0] == '\n' then [""] + Lines(text[1..])
    else
      var rest := Lines(text[1..]);
      [[text[0]] + rest[0]] + rest[1..]
  }

  predicate Separates(c: char) {
    c == ',' || c == ';' || c == ' ' || c == '\t'
  }

  /** The text up to the first separator. */
  function Word(s: string): (w: string)
    ensures w <= s && forall c :: c in w ==> !Separates(c)
    ensures |w| < |s| ==> Separates(s[|w|])
  {
    if s == "" || Separates(s[0]) then "" else [s[0]] + Word(s[1..])
  }

  /** The maximal non-empty stretches without separators. */
  function Fields(s: string): (toks: seq<string>)
    ensures forall t :: t in toks ==> t != "" && forall c :: c in t ==> !Separates(c)
    decreases |s|
  {
    if s == "" then []
    else if Separates(s[0]) then Fields(s[1..])
    else [Word(s)] + Fields(s[|Word(s)|..])
  }

  function Tokens(raw: string): seq<string> {
    var line := CallIds.TrimSpace(raw);
    if line == "" || line[0] == '#' then [] else Fields(line)
  }

  // ---------- what the tokens of a text are ----------

  function Prepend(c: char, lines: seq<string>): seq<string>
    requires lines != []
  {
    if c == '\n' then [""] + lines else [[c] + lines[0]] + lines[1..]
  }

  lemma PrependKeeps(c: char, a: seq<string>, b: seq<string>)
    requires a != []
    ensures Prepend(c, a + b) == Prepend(c, a) + b
  {
    assert (a + b)[0] == a[0] && (a + b)[1..] == a[1..] + b;
  }

  lemma LinesCons(c: char, s: string)
    ensures Lines([c] + s) == Prepend(c, Lines(s))
  {
    assert ([c] + s)[1..] == s;
  }

  lemma {:induction false} LinesSplit(a: string, b: string)
    ensures Lines(a + "\n" + b) == Lines(a) + Lines(b)
    decreases |a|
  {
    hide Prepend;
    if a == "" {
      LinesCons('\n', b);
      NoLine(Lines(b));
      assert a + "\n" + b == ['\n'] + b;
    } else {
      hide Lines;
      var c, s, tail := a[0], a[1..], a[1..] + "\n" + b;
      assert a == [c] + s;
      assert a + "\n" + b == [c] + tail;
      LinesSplit(s, b);
      LinesCons(c, s);
      LinesCons(c, tail);
      PrependKeeps(c, Lines(s), Lines(b));
    }
  }

  lemma NoLine(lines: seq<string>)
    requires lines != []
    ensures Lines("") == [""] && Prepend('\n', lines) == [""] + lines
  {
  }

  lemma {:induction false} OneLine(a: string)
    requires '\n' !in a
    ensures Lines(a) == [a]
  {
    if a != "" {
      assert a == [a[0]] + a[1..] && a[0] in a;
      OneLine(a[1..]);
    }
  }

  lemma {:induction false} WordStops(a: string, c: char, b: string)
    requires Separates(c)
    ensures Word(a + [c] + b) == Word(a)
  {
    var s := a + [c] + b;
    if a == "" {
      assert s[0] == c;
    } else {
      assert s[0] == a[0] && s[1..] == a[1..] + [c] + b;
      WordStops(a[1..], c, b);
    }
  }

  /** A line falls apart at every comma, semicolon, space and tab, and nowhere else. */
  lemma FieldsMean(a: string, c: char, b: string)
    ensures c == ',' || c == ';' || c == ' ' || c == '\t' ==> Fields(a + [c] + b) == Fields(a) + Fields(b)
    ensures a != "" && ',' !in a && ';' !in a && ' ' !in a && '\t' !in a ==> Fields(a) == [a]
  {
    if Separates(c) {
      FieldsSplit(a, c, b);
    }
    if a != "" && forall x :: x in a ==> !Separates(x) {
      assert a[0] in a;
      WordOfWhole(a);
      assert a[|a|..] == "";
    }
    hide Fields;
  }

  lemma {:induction false} FieldsSplit(a: string, c: char, b: string)
    requires Separates(c)
    ensures Fields(a + [c] + b) == Fields(a) + Fields(b)
    decreases |a|
  {
    var s := a + [c] + b;
    if a == "" {
      assert s[0] == c && s[1..] == b;
    } else if Separates(a[0]) {
      assert s[0] == a[0] && s[1..] == a[1..] + [c] + b;
      FieldsSplit(a[1..], c, b);
    } else {
      var w := Word(a);
      WordStops(a, c, b);
      FieldsSplit(a[|w|..], c, b);
      assert s[0] == a[0] && s[|w|..] == a[|w|..] + [c] + b;
      hide Word;
    }
  }

  /** The line without the blanks around it. */
  ghost predicate Trimmed(raw: string, lo: int, hi: int) {
    && 0 <= lo <= hi <= |raw|
    && (forall i :: 0 <= i < lo || hi <= i < |raw| ==> CallIds.IsSpace(raw[i]))
    && (lo < hi ==> !CallIds.IsSpace(raw[lo]) && !CallIds.IsSpace(raw[hi - 1]))
  }

  /** A blank line and one whose first character is a hash have no token; any other has those of what is between its
      blanks. */
  lemma TokensMean(raw: string)
    ensures exists lo, hi :: Trimmed(raw, lo, hi)
                          && Tokens(raw) == if lo == hi || raw[lo] == '#' then [] else Fields(raw[lo..hi])
  {
    hide Fields;
    var lo, hi := CallIds.TrimCuts(raw);
    assert Trimmed(raw, lo, hi);
  }

  lemma {:induction false} TokensConcat(a: seq<string>, b: seq<string>)
    ensures AllTokens(a + b) == AllTokens(a) + AllTokens(b)
  {
    hide Tokens;
    if b == [] {
      assert a + b == a;
    } else {
      var n := |b| - 1;
      TokensConcat(a, b[..n]);
      assert (a + b)[..|a| + n] == a + b[..n];
    }
  }

  /** The tokens of a text are those of its lines, in their order. */
  lemma TextSplit(a: string, b: string)
    ensures AllTokens(Lines(a + "\n" + b)) == AllTokens(Lines(a)) + AllTokens(Lines(b))
    ensures '\n' !in a ==> AllTokens(Lines(a)) == Tokens(a)
  {
    hide Lines, Tokens;
    LinesSplit(a, b);
    TokensConcat(Lines(a), Lines(b));
    if '\n' !in a {
      OneLine(a);
      assert [a][..0] == [];
    }
  }

  // ---------- free text ----------

  datatype Warning = Warning(line: nat, raw: string)

  datatype Parsed = Parsed(entries: seq<string>, warnings: seq<Warning>) | Refused(why: string)

  function Accepted(toks: seq<string>): seq<string> {
    if toks == [] then []
    else
      var n := |toks| - 1;
      var t := NormalizeE164(toks[n]);
      Accepted(toks[..n]) + if t == "" then [] else [t]
  }

  function AllTokens(lines: seq<string>): seq<string> {
    if lines == [] then [] else AllTokens(lines[..|lines| - 1]) + Tokens(lines[|lines| - 1])
  }

  function Rejected(toks: seq<string>, line: nat, raw: string): seq<Warning> {
    if toks == [] then []
    else
      var n := |toks| - 1;
      Rejected(toks[..n], line, raw) + if NormalizeE164(toks[n]) == "" then [Warning(line, raw)] else []
  }

  function AllWarnings(lines: seq<string>): seq<Warning> {
    if lines == [] then []
    else
      var n := |lines| - 1;
      AllWarnings(lines[..n]) + Rejected(Tokens(lines[n]), n + 1, lines[n])
  }

  function Bulk(text: string): Parsed {
    var entries := Accepted(AllTokens(Lines(text)));
    var warnings := AllWarnings(Lines(text));
    if |entries| > MAX_ROWS then Refused("exceeds max")
    else if |entries| == 0 && |warnings| == 0 then Refused("no entries found in input")
    else Parsed(entries, warnings)
  }

  lemma {:induction false} AcceptedConcat(a: seq<string>, b: seq<string>)
    ensures Accepted(a + b) == Accepted(a) + Accepted(b)
  {
    hide NormalizeE164;
    if b == [] {
      assert a + b == a;
    } else {
      var n := |b| - 1;
      AcceptedConcat(a, b[..n]);
      assert (a + b)[..|a| + n] == a + b[..n] && (a + b)[|a| + n] == b[n];
      assert |a + b| == |a| + n + 1;
    }
  }

  /** One line's tokens, appended to what is there. */
  method ParseLine(toks: seq<string>, ln: nat, raw: string, entries0: seq<string>, warnings0: seq<Warning>)
    returns (entries: seq<string>, warnings: seq<Warning>)
    ensures entries == entries0 + Accepted(toks)
    ensures warnings == warnings0 + Rejected(toks, ln + 1, raw)
  {
    hide NormalizeE164;
    entries, warnings := entries0, warnings0;
    var k := 0;
    while k < |toks|
      invariant 0 <= k <= |toks|
      invariant entries == entries0 + Accepted(toks[..k])
      invariant warnings == warnings0 + Rejected(toks[..k], ln + 1, raw)
    {
      assert toks[..k + 1][..k] == toks[..k];
      var t := NormalizeE164(toks[k]);
      if t == "" {
        warnings := warnings + [Warning(ln + 1, raw)];
      } else {
        entries := entries + [t];
      }
      k := k + 1;
    }
    assert toks[..|toks|] == toks;
  }

  method ParseBulk(text: string) returns (r: Parsed)
    ensures r == Bulk(text)
  {
    hide Tokens, Accepted, Rejected;
    var lines := Lines(text);
    var entries, warnings := [], [];
    var ln := 0;
    assert Accepted([]) == [] by { NoTokens(); }
    while ln < |lines|
      invariant 0 <= ln <= |lines|
      invariant entries == Accepted(AllTokens(lines[..ln]))
      invariant warnings == AllWarnings(lines[..ln])
    {
      assert lines[..ln + 1][..ln] == lines[..ln];
      AcceptedConcat(AllTokens(lines[..ln]), Tokens(lines[ln]));
      entries, warnings := ParseLine(Tokens(lines[ln]), ln, lines[ln], entries, warnings);
      ln := ln + 1;
    }
    assert lines[..|lines|] == lines;
    if |entries| > MAX_ROWS { return Refused("exceeds max"); }
    if |entries| == 0 && |warnings| == 0 { return Refused("no entries found in input"); }
    return Parsed(entries, warnings);
  }

  lemma NoTokens()
    ensures Accepted([]) == []
  {
  }

  /** Every entry is 6 to 15 digits, and every token ends up as one entry or one warning. */
  lemma {:induction false} AcceptedAreNumbers(toks: seq<string>)
    ensures forall e :: e in Accepted(toks) ==> Digits(e) && Plausible(e)
  {
    if toks != [] {
      AcceptedAreNumbers(toks[..|toks| - 1]);
      AcceptedIffDigitCount(toks[|toks| - 1]);
      hide NormalizeE164;
    }
  }

  lemma {:induction false} LineAccounted(toks: seq<string>, line: nat, raw: string)
    ensures |Accepted(toks)| + |Rejected(toks, line, raw)| == |toks|
  {
    if toks != [] {
      LineAccounted(toks[..|toks| - 1], line, raw);
    }
  }

  lemma {:induction false} TokensAccounted(lines: seq<string>)
    ensures |Accepted(AllTokens(lines))| + |AllWarnings(lines)| == |AllTokens(lines)|
  {
    hide Tokens, NormalizeE164;
    if lines != [] {
      var n := |lines| - 1;
      TokensAccounted(lines[..n]);
      AcceptedConcat(AllTokens(lines[..n]), Tokens(lines[n]));
      LineAccounted(Tokens(lines[n]), n + 1, lines[n]);
    }
  }

  /** An entry for each token of 6 to 15 digits, in their order, and it is those digits. */
  lemma EntriesMean(a: seq<string>, b: seq<string>, t: string)
    ensures Accepted(a + b) == Accepted(a) + Accepted(b) && Accepted([]) == []
    ensures Accepted([t]) == if 6 <= |OnlyDigits(t)| <= 15 then [OnlyDigits(t)] else []
  {
    AcceptedConcat(a, b);
    AcceptedIffDigitCount(t);
    assert [t][..0] == [];
    hide NormalizeE164;
  }

  /** The warnings about line `i`, counted from zero. */
  function About(warnings: seq<Warning>, i: int): seq<Warning> {
    if warnings == [] then []
    else
      var n := |warnings| - 1;
      About(warnings[..n], i) + if warnings[n].line == i + 1 then [warnings[n]] else []
  }

  lemma {:induction false} AboutConcat(a: seq<Warning>, b: seq<Warning>, i: int)
    ensures About(a + b, i) == About(a, i) + About(b, i)
  {
    if b == [] {
      assert a + b == a;
    } else {
      var n := |b| - 1;
      AboutConcat(a, b[..n], i);
      assert (a + b)[..|a| + n] == a + b[..n];
    }
  }

  lemma {:induction false} RejectedAre(toks: seq<string>, line: nat, raw: string)
    ensures forall w :: w in Rejected(toks, line, raw) ==> w == Warning(line, raw)
  {
    hide NormalizeE164;
    if toks != [] {
      RejectedAre(toks[..|toks| - 1], line, raw);
    }
  }

  lemma {:induction false} AllAbout(warnings: seq<Warning>, i: int)
    requires forall w :: w in warnings ==> w.line == i + 1
    ensures About(warnings, i) == warnings
  {
    if warnings != [] {
      var n := |warnings| - 1;
      assert warnings[n] in warnings;
      AllAbout(warnings[..n], i);
      assert warnings == warnings[..n] + [warnings[n]];
    }
  }

  lemma {:induction false} NoneAbout(warnings: seq<Warning>, i: int)
    requires forall w :: w in warnings ==> w.line != i + 1
    ensures About(warnings, i) == []
  {
    if warnings != [] {
      assert warnings[|warnings| - 1] in warnings;
      NoneAbout(warnings[..|warnings| - 1], i);
    }
  }

  /** A warning gives its line's number, counted from one, and the line as it is; warnings come in the order of their
      lines. */
  lemma {:induction false} WarningsPlaced(lines: seq<string>)
    ensures forall w :: w in AllWarnings(lines) ==> 1 <= w.line <= |lines| && w.raw == lines[w.line - 1]
    ensures forall a, b :: 0 <= a < b < |AllWarnings(lines)| ==>
        AllWarnings(lines)[a].line <= AllWarnings(lines)[b].line
  {
    hide Tokens, Rejected;
    if lines != [] {
      var n := |lines| - 1;
      var front, back := AllWarnings(lines[..n]), Rejected(Tokens(lines[n]), n + 1, lines[n]);
      WarningsPlaced(lines[..n]);
      RejectedAre(Tokens(lines[n]), n + 1, lines[n]);
      var both: seq<Warning> := front + back;
      forall a, b | 0 <= a < b < |both| ensures both[a].line <= both[b].line {
        if a < |front| { assert front[a] in front; }
        if b >= |front| { assert back[b - |front|] in back; }
        if a >= |front| { assert back[a - |front|] in back; }
      }
    }
  }

  /** A line has as many warnings as it has tokens that are no entry. */
  lemma {:induction false} WarningsMean(lines: seq<string>, i: nat)
    requires i < |lines|
    ensures |About(AllWarnings(lines), i)| + |Accepted(Tokens(lines[i]))| == |Tokens(lines[i])|
  {
    hide Tokens, Accepted, Rejected, About;
    var n := |lines| - 1;
    var toks := Tokens(lines[n]);
    RejectedAre(toks, n + 1, lines[n]);
    AboutConcat(AllWarnings(lines[..n]), Rejected(toks, n + 1, lines[n]), i);
    if i < n {
      NoneAbout(Rejected(toks, n + 1, lines[n]), i);
      WarningsMean(lines[..n], i);
    } else {
      AllAbout(Rejected(toks, n + 1, lines[n]), i);
      LineAccounted(toks, n + 1, lines[n]);
      WarningsPlaced(lines[..n]);
      NoneAbout(AllWarnings(lines[..n]), n);
    }
  }

  /** A text is refused exactly when it has no token at all or more than 10,000 entries. */
  lemma BulkResult(text: string)
    ensures var toks := AllTokens(Lines(text));
      && (Bulk(text).Refused? <==> toks == [] || |Accepted(toks)| > 10_000)
      && (Bulk(text).Parsed? ==>
            && Bulk(text).entries == Accepted(toks) && Bulk(text).warnings == AllWarnings(Lines(text))
            && (forall e :: e in Bulk(text).entries ==> Digits(e) && 6 <= |e| <= 15)
            && |Bulk(text).entries| + |Bulk(text).warnings| == |toks|)
  {
    hide Lines, AllTokens, AllWarnings, Accepted;
    AcceptedAreNumbers(AllTokens(Lines(text)));
    TokensAccounted(Lines(text));
  }

  // ---------- printing and parsing again ----------

  /** One entry a line. */
  function Print(entries: seq<string>): string {
    if entries == [] then "" else entries[0] + "\n" + Print(entries[1..])
  }

  lemma {:induction false} LineOf(word: string, rest: string)
    requires '\n' !in word
    ensures Lines(word + "\n" + rest) == [word] + Lines(rest)
  {
    if word == "" {
      assert word + "\n" + rest == ['\n'] + rest;
      assert (['\n'] + rest)[1..] == rest;
    } else {
      var text := word + "\n" + rest;
      assert text[0] == word[0] && word[0] in word;
      assert text[1..] == word[1..] + "\n" + rest;
      LineOf(word[1..], rest);
      assert [word[0]] + word[1..] == word;
      var tail := Lines(text[1..]);
      assert tail[0] == word[1..] && tail[1..] == Lines(rest);
    }
  }

  lemma {:induction false} PrintedLines(entries: seq<string>)
    requires forall e :: e in entries ==> '\n' !in e
    ensures Lines(Print(entries)) == entries + [""]
  {
    if entries == [] {
    } else {
      PrintedLines(entries[1..]);
      LineOf(entries[0], Print(entries[1..]));
      assert entries == [entries[0]] + entries[1..];
    }
  }

  lemma {:induction false} WordOfWhole(s: string)
    requires forall c :: c in s ==> !Separates(c)
    ensures Word(s) == s
  {
    if s != "" {
      assert s[0] in s;
      WordOfWhole(s[1..]);
    }
  }

  lemma NumberIsOneToken(e: string)
    requires Digits(e) && Plausible(e)
    ensures Tokens(e) == [e] && NormalizeE164(e) == e && '\n' !in e
  {
    DigitsAreClean(e);
    DigitsOfDigits(e);
    AcceptedIffDigitCount(e);
    forall c | c in e ensures !Separates(c) && c != '\n' && c != '#' {
      var i :| 0 <= i < |e| && e[i] == c;
      assert IsDigit(e[i]);
    }
    assert e[0] in e;
    WordOfWhole(e);
    assert Fields(e) == [Word(e)] + Fields(e[|e|..]);
  }

  lemma {:induction false} NumbersAreTheirTokens(entries: seq<string>)
    requires forall e :: e in entries ==> Digits(e) && Plausible(e)
    ensures AllTokens(entries) == entries && AllWarnings(entries) == []
  {
    hide Tokens, NormalizeE164, Accepted, Digits, Plausible, Rejected;
    if entries != [] {
      var n := |entries| - 1;
      var front, e := entries[..n], entries[n];
      assert entries == front + [e] && e in entries;
      assert forall x :: x in front ==> x in entries;
      NumbersAreTheirTokens(front);
      NumberIsOneToken(e);
      OneTokenAccepted(e, n + 1);
    }
  }

  lemma {:induction false} NumbersAreAccepted(entries: seq<string>)
    requires forall e :: e in entries ==> Digits(e) && Plausible(e)
    ensures Accepted(entries) == entries
  {
    hide Tokens, NormalizeE164, Digits;
    if entries != [] {
      var n := |entries| - 1;
      var front, e := entries[..n], entries[n];
      assert entries == front + [e] && e in entries;
      assert forall x :: x in front ==> x in entries;
      NumbersAreAccepted(front);
      NumberIsOneToken(e);
    }
  }

  lemma OneTokenAccepted(e: string, line: nat)
    requires Digits(e) && Plausible(e)
    ensures Rejected([e], line, e) == []
  {
    NumberIsOneToken(e);
    hide NormalizeE164;
    assert [e][..0] == [];
  }

  /** Printing numbers one a line and parsing the text gives them back, in order and without warnings. */
  lemma PrintParses(entries: seq<string>)
    requires 1 <= |entries| <= 10_000
    requires forall e :: e in entries ==> Digits(e) && 6 <= |e| <= 15
    ensures Bulk(Print(entries)) == Parsed(entries, [])
  {
    hide Lines, Print, AllTokens, AllWarnings, Accepted, Tokens, NormalizeE164, Digits;
    forall e | e in entries ensures '\n' !in e {
      NumberIsOneToken(e);
    }
    PrintedLines(entries);
    NumbersAreTheirTokens(entries);
    NumbersAreAccepted(entries);
    BlankLastLine(entries);
  }

  lemma BlankLastLine(lines: seq<string>)
    ensures AllTokens(lines + [""]) == AllTokens(lines)
    ensures AllWarnings(lines + [""]) == AllWarnings(lines)
  {
    hide Fields;
    assert (lines + [""])[..|lines|] == lines;
    assert Tokens("") == [];
  }

  /** So what a bulk parse accepted survives being printed and parsed again. */
  lemma ReparseIsIdentity(text: string)
    requires Bulk(text).Parsed? && Bulk(text).entries != []
    ensures Bulk(Print(Bulk(text).entries)) == Parsed(Bulk(text).entries, [])
  {
    BulkResult(text);
    PrintParses(Bulk(text).entries);
  }

  // ---------- ranges ----------

  /** `Endless`: the loop variable cannot pass the largest 64-bit integer. */
  datatype Ranged = Range(entries: seq<string>) | Bad(why: string) | Endless

  /** ParseInt: the value of a digit string, or None when it does not fit 64 bits. */
  function ParseInt(s: string): Option<int>
    requires Digits(s)
  {
    if s == "" || DigitsValue(s) > MAX_INT64 then None else Some(DigitsValue(s))
  }

  method ParseRange(startStr: string, endStr: string) returns (r: Ranged)
    ensures r == RangeOf(OnlyDigits(startStr), OnlyDigits(endStr))
  {
    var startDigits, endDigits := OnlyDigits(startStr), OnlyDigits(endStr);
    if startDigits == "" { return Bad("start E.164 is required"); }
    var start := ParseInt(startDigits);
    if start.None? || start.value <= 0 { return Bad("bad start"); }
    var end := start.value;
    if endDigits != "" {
      var e := ParseInt(endDigits);
      if e.None? || e.value < start.value { return Bad("bad end"); }
      end := e.value;
    }
    if end - start.value + 1 > MAX_ROWS { return Bad("range exceeds max"); }
    if end == MAX_INT64 { return Endless; }
    var out := [];
    var n := start.value;
    while n <= end
      invariant start.value <= n <= end + 1
      invariant out == Interval(start.value, n)
    {
      out := out + [Decimal(n)];
      n := n + 1;
    }
    return Range(out);
  }

  /** The decimal forms of lo, lo + 1, ..., hi - 1. */
  function Interval(lo: nat, hi: int): (out: seq<string>)
    requires lo <= hi
    ensures |out| == hi - lo
    ensures forall i :: 0 <= i < |out| ==> out[i] == Decimal(lo + i)
    decreases hi - lo
  {
    if lo == hi then [] else Interval(lo, hi - 1) + [Decimal(hi - 1)]
  }

  function RangeOf(startDigits: string, endDigits: string): Ranged
    requires Digits(startDigits) && Digits(endDigits)
  {
    var start := ParseInt(startDigits);
    var end := if endDigits == "" then start else ParseInt(endDigits);
    if startDigits == "" then Bad("start E.164 is required")
    else if start.None? || start.value <= 0 then Bad("bad start")
    else if end.None? || end.value < start.value then Bad("bad end")
    else if end.value - start.value + 1 > MAX_ROWS then Bad("range exceeds max")
    else if end.value == MAX_INT64 then Endless
    else Range(Interval(start.value, end.value + 1))
  }

  /** Without an end the range is its start alone. */
  lemma LoneStart(start: string)
    requires Digits(start)
    ensures RangeOf(start, "") == RangeOf(start, start)
    ensures start != "" && 0 < DigitsValue(start) < 0x7FFF_FFFF_FFFF_FFFF ==>
              RangeOf(start, "") == Range([Decimal(DigitsValue(start))])
  {
    if start != "" && 0 < DigitsValue(start) < 0x7FFF_FFFF_FFFF_FFFF {
      assert Interval(DigitsValue(start), DigitsValue(start)) == [];
    }
  }

  /** Two printed integers, however decorated, give exactly the decimal forms between them, in order,
      exactly when the interval is non-empty, within the row cap and below the 64-bit limit. */
  lemma PrintedRangeParses(startStr: string, endStr: string, lo: nat, hi: nat)
    requires OnlyDigits(startStr) == Decimal(lo) && OnlyDigits(endStr) == Decimal(hi)
    ensures RangeOf(Decimal(lo), Decimal(hi)).Range? <==> 0 < lo <= hi < 0x7FFF_FFFF_FFFF_FFFF && hi - lo < 10_000
    ensures RangeOf(Decimal(lo), Decimal(hi)).Endless? <==> lo <= hi == 0x7FFF_FFFF_FFFF_FFFF && hi - lo < 10_000
    ensures RangeOf(Decimal(lo), Decimal(hi)).Range? ==>
              var out := RangeOf(Decimal(lo), Decimal(hi)).entries;
              && |out| == hi - lo + 1 && (forall i :: 0 <= i < |out| ==> out[i] == Decimal(lo + i))
              && (forall i, j :: 0 <= i < j < |out| ==> out[i] != out[j])
  {
    DecimalValue(lo);
    DecimalValue(hi);
    if RangeOf(Decimal(lo), Decimal(hi)).Range? {
      var out := Interval(lo, hi + 1);
      forall i, j | 0 <= i < j < |out| ensures out[i] != out[j] {
        DecimalValue(lo + i);
        DecimalValue(lo + j);
      }
    }
  }
}
