/**
  The texts the server exchanges with `ip` and `nft`: what it prints, what those tools print, and
  the recognisers of src/firecracker/network.rs and src/firecracker/orphan.rs.
 */
module HostText {
  import opened Prelude
  import opened Text
  import Decimal
  import Pool = SubnetPools

  // ── nft handles ──

  const MARKER: string := "# handle "

  /** What follows the first marker of a line, trimmed. */
  function HandleTail(line: string): Option<string> {
    match Find(line, MARKER)
    case None => None
    case Some(pos) => Some(Trim(line[pos + |MARKER|..]))
  }

  /** The handle tails of the lines that have one, in order. */
  function Tails(lines: seq<string>): seq<string> {
    if lines == [] then []
    else
      var init := Tails(lines[..|lines| - 1]);
      match HandleTail(lines[|lines| - 1])
      case None => init
      case Some(tail) => init + [tail]
  }

  predicate AllParse(tails: seq<string>) {
    forall k :: 0 <= k < |tails| ==> Decimal.ParseU64(tails[k]).Some?
  }

  datatype HandleError = NoHandle | BadHandle

  /** The handle nft reported: the number on the last marked line, provided every marked line is a number. */
  function HandleOf(output: string): Result<u64, HandleError> {
    var tails := Tails(Lines(output));
    if !AllParse(tails) then Err(BadHandle)
    else if tails == [] then Err(NoHandle)
    else Ok(Decimal.ParseU64(tails[|tails| - 1]).value)
  }

  lemma TailsSnoc(lines: seq<string>, n: nat)
    requires n < |lines|
    ensures Tails(lines[..n + 1]) ==
            Tails(lines[..n]) + (match HandleTail(lines[n]) case None => [] case Some(tail) => [tail])
  {
    assert lines[..n + 1][..n] == lines[..n];
  }

  lemma PrefixParses(a: seq<string>, b: seq<string>)
    requires a <= b && AllParse(b)
    ensures AllParse(a)
  {
    assert forall k :: 0 <= k < |a| ==> a[k] == b[k];
  }

  lemma {:induction false} BadTailStays(lines: seq<string>, n: nat)
    requires n <= |lines| && !AllParse(Tails(lines[..n]))
    ensures !AllParse(Tails(lines))
    decreases |lines| - n
  {
    if n < |lines| {
      TailsSnoc(lines, n);
      if AllParse(Tails(lines[..n + 1])) { PrefixParses(Tails(lines[..n]), Tails(lines[..n + 1])); }
      BadTailStays(lines, n + 1);
    } else {
      assert lines[..n] == lines;
    }
  }

  /** The last of some tails, as a number. */
  function LastHandle(tails: seq<string>): Option<u64> {
    if tails == [] then None else Decimal.ParseU64(tails[|tails| - 1])
  }

  lemma ParseOneMore(tails: seq<string>, tail: string)
    ensures AllParse(tails + [tail]) <==> AllParse(tails) && Decimal.ParseU64(tail).Some?
    ensures LastHandle(tails + [tail]) == Decimal.ParseU64(tail)
  {
    var more := tails + [tail];
    assert more[|tails|] == tail;
    assert forall k :: 0 <= k < |tails| ==> more[k] == tails[k];
  }

  method ParseNftHandle(output: string) returns (r: Result<u64, HandleError>)
    ensures r == HandleOf(output)
  {
    var lines := Lines(output);
    var last: Option<u64> := None;
    ghost var tails: seq<string> := [];
    for n := 0 to |lines|
      invariant tails == Tails(lines[..n])
      invariant AllParse(tails) && last == LastHandle(tails)
    {
      TailsSnoc(lines, n);
      var tail := HandleTail(lines[n]);
      if tail.Some? {
        ParseOneMore(tails, tail.value);
        tails := tails + [tail.value];
        var handle := Decimal.ParseU64(tail.value);
        if handle.None? {
          BadTailStays(lines, n + 1);
          return Err(BadHandle);
        }
        last := handle;
      } else {
        assert tails + [] == tails;
      }
    }
    assert lines[..|lines|] == lines;
    return if last.None? then Err(NoHandle) else Ok(last.value);
  }

  /** A line of nft's echo: some text, the marker, and the handle as a decimal numeral. */
  function EchoLine(text: string, handle: u64): string {
    text + "# handle " + Decimal.Print(handle)
  }

  lemma MarkerFirst(text: string, rest: string)
    requires '#' !in text
    ensures Find(text + MARKER + rest, MARKER) == Some(|text|)
  {
    var line := text + MARKER + rest;
    assert line[|text|..][..|MARKER|] == MARKER;
    assert StartsWith(line[|text|..], MARKER);
    var pos := Find(line, MARKER);
    assert forall j :: 0 <= j < |text| ==> line[j] != '#';
    assert line[pos.value..pos.value + |MARKER|][0] == MARKER[0];
  }

  lemma NumeralTrims(n: nat)
    ensures Trim(Decimal.Print(n)) == Decimal.Print(n)
  {
    assert "" + Decimal.Print(n) == Decimal.Print(n);
    TrimIndent("", Decimal.Print(n));
  }

  /** The tail of a marked line: whatever follows the marker, trimmed. */
  lemma MarkedTail(text: string, rest: string)
    requires '#' !in text
    ensures HandleTail(text + "# handle " + rest) == Some(Trim(rest))
  {
    var line := text + MARKER + rest;
    MarkerFirst(text, rest);
    assert line[|text| + |MARKER|..] == rest;
  }

  lemma EchoTail(text: string, handle: u64)
    requires '#' !in text
    ensures HandleTail(EchoLine(text, handle)) == Some(Decimal.Print(handle))
  {
    MarkedTail(text, Decimal.Print(handle));
    NumeralTrims(handle);
  }

  lemma EchoedReply(noise: seq<string>, line: string, after: seq<string>)
    requires IsLine(line) && forall l :: l in noise + after ==> IsLine(l)
    ensures forall l :: l in noise + [line] + after ==> IsLine(l)
  {
    assert forall l :: l in noise + [line] + after ==> l == line || l in noise + after;
  }

  /** The marker occurs nowhere in the line. */
  predicate Unmarked(line: string) {
    forall j :: 0 <= j <= |line| ==> !StartsWith(line[j..], "# handle ")
  }

  lemma UnmarkedHasNoTail(line: string)
    requires Unmarked(line)
    ensures HandleTail(line).None?
  {
    var r := Find(line, MARKER);
    assert forall j :: 0 <= j && j + |MARKER| <= |line| ==> line[j..][..|MARKER|] == line[j..j + |MARKER|];
    assert r.Some? ==> StartsWith(line[r.value..], MARKER);
  }

  lemma {:induction false} UnmarkedTails(lines: seq<string>)
    requires forall l :: l in lines ==> Unmarked(l)
    ensures Tails(lines) == []
  {
    if lines != [] {
      UnmarkedTails(lines[..|lines| - 1]);
      UnmarkedHasNoTail(lines[|lines| - 1]);
    }
  }

  function TailOf(line: string): seq<string> {
    match HandleTail(line)
    case None => []
    case Some(tail) => [tail]
  }

  lemma TailsPush(init: seq<string>, last: string)
    ensures Tails(init + [last]) == Tails(init) + TailOf(last)
  {
    assert (init + [last])[..|init|] == init;
    assert Tails(init) + [] == Tails(init);
  }

  lemma {:induction false} TailsAppend(a: seq<string>, b: seq<string>)
    ensures Tails(a + b) == Tails(a) + Tails(b)
  {
    if b == [] {
      assert a + b == a;
      assert Tails(a) + [] == Tails(a);
    } else {
      var init, last := b[..|b| - 1], b[|b| - 1];
      assert b == init + [last];
      assert a + b == (a + init) + [last];
      calc {
        Tails(a + b);
        { TailsPush(a + init, last); }
        Tails(a + init) + TailOf(last);
        { TailsAppend(a, init); }
        Tails(a) + Tails(init) + TailOf(last);
        Tails(a) + (Tails(init) + TailOf(last));
        { TailsPush(init, last); }
        Tails(a) + Tails(b);
      }
    }
  }

  /** Unmarked lines at the end change nothing: the last marked line decides, if all before it are numbers. */
  lemma LastMarkedDecides(noise: seq<string>, line: string, tail: string, after: seq<string>)
    requires (forall l :: l in noise + [line] + after ==> IsLine(l)) && forall l :: l in after ==> Unmarked(l)
    requires HandleTail(line) == Some(tail)
    ensures HandleOf(Unlines(noise + [line] + after)) ==
            if AllParse(Tails(noise)) && Decimal.ParseU64(tail).Some? then Ok(Decimal.ParseU64(tail).value)
            else Err(BadHandle)
  {
    LinesOfUnlines(noise + [line] + after);
    TailsAppend(noise + [line], after);
    TailsAppend(noise, [line]);
    TailsPush([], line);
    UnmarkedTails(after);
    assert Tails(noise) + [tail] + [] == Tails(noise) + [tail];
    ParseOneMore(Tails(noise), tail);
  }

  /**
    Round trip: when the reply echoes the rule and no marked line follows, the handle nft printed is
    the handle read back, exactly when every earlier marked line is a number too.
   */
  lemma HandleRoundTrip(noise: seq<string>, text: string, handle: u64, after: seq<string>)
    requires forall l :: l in noise + after ==> IsLine(l)
    requires '#' !in text && '\n' !in text && forall l :: l in after ==> Unmarked(l)
    ensures HandleOf(Unlines(noise + [EchoLine(text, handle)] + after)) ==
            if AllParse(Tails(noise)) then Ok(handle) else Err(BadHandle)
  {
    EchoTail(text, handle);
    EchoIsLine(text, handle);
    Decimal.ParsePrinted(handle);
    EchoedReply(noise, EchoLine(text, handle), after);
    LastMarkedDecides(noise, EchoLine(text, handle), Decimal.Print(handle), after);
  }

  /** A reply without the marker names no handle. */
  lemma NoMarkerNoHandle(lines: seq<string>)
    requires forall l :: l in lines ==> IsLine(l) && Unmarked(l)
    ensures HandleOf(Unlines(lines)) == Err(NoHandle)
  {
    LinesOfUnlines(lines);
    UnmarkedTails(lines);
  }

  /** One marked line that is no number spoils the reply, wherever it stands. */
  lemma BadLineSpoils(before: seq<string>, text: string, rest: string, after: seq<string>)
    requires forall l :: l in before + [text + "# handle " + rest] + after ==> IsLine(l)
    requires '#' !in text && Decimal.ParseU64(Trim(rest)).None?
    ensures HandleOf(Unlines(before + [text + "# handle " + rest] + after)) == Err(BadHandle)
  {
    var line := text + "# handle " + rest;
    LinesOfUnlines(before + [line] + after);
    TailsAppend(before + [line], after);
    TailsAppend(before, [line]);
    TailsPush([], line);
    MarkedTail(text, rest);
    ParseOneMore(Tails(before), Trim(rest));
    if AllParse(Tails(before) + [Trim(rest)] + Tails(after)) {
      PrefixParses(Tails(before) + [Trim(rest)], Tails(before) + [Trim(rest)] + Tails(after));
    }
  }

  lemma EchoIsLine(text: string, handle: u64)
    requires '\n' !in text
    ensures IsLine(EchoLine(text, handle))
  {
    var digits := Decimal.Print(handle);
    assert forall k :: 0 <= k < |digits| ==> Decimal.IsDigit(digits[k]);
    var line := EchoLine(text, handle);
    assert line[|line| - 1] == digits[|digits| - 1];
  }

  // ── nft listings ──

  /** The two rule shapes the server adds, as nft lists them, and any other rule. */
  datatype Rule =
    | Masquerade(guest: string, iface: string, packets: nat, bytes: nat)
    | Forward(tap: string, iface: string)
    | Other(first: string, rest: string)

  datatype Chain = Chain(name: string, hook: string, rules: seq<Rule>)

  predicate Inline(s: string) {
    '\n' !in s
  }

  predicate RuleOk(r: Rule) {
    match r
    case Masquerade(guest, iface, _, _) => Inline(guest) && Inline(iface)
    case Forward(tap, iface) => Inline(tap) && Inline(iface)
    case Other(first, rest) => OtherOk(first, rest)
  }

  /** Another rule begins with another word than the lines of the structure. */
  predicate OtherOk(first: string, rest: string) {
    && first != "" && NoSpace(first) && Inline(rest) && (rest == "" || Solid(rest))
    && first != "table" && first != "chain" && first != "type" && first != "{" && first != "}"
  }

  predicate ChainOk(c: Chain) {
    Inline(c.name) && Inline(c.hook) && forall k :: 0 <= k < |c.rules| ==> RuleOk(c.rules[k])
  }

  function RuleText(r: Rule): string {
    match r
    case Masquerade(guest, iface, packets, bytes) =>
      "ip saddr " + guest + " oifname \"" + iface + "\" counter packets " + Decimal.Print(packets)
      + " bytes " + Decimal.Print(bytes) + " masquerade"
    case Forward(tap, iface) =>
      "iifname \"" + tap + "\" oifname \"" + iface + "\" accept"
    case Other(first, rest) => OtherText(first, rest)
  }

  function OtherText(first: string, rest: string): string {
    if rest == "" then first else first + " " + rest
  }

  function RuleLines(rules: seq<Rule>): seq<string> {
    if rules == [] then [] else ["\t\t" + RuleText(rules[0])] + RuleLines(rules[1..])
  }

  function HeaderLines(c: Chain): seq<string> {
    ["\t" + ("chain " + c.name + " {")]
  }

  function HookLines(c: Chain): seq<string> {
    ["\t\t" + ("type " + c.hook + ";")]
  }

  function FooterLines(): seq<string> {
    ["\t" + "}"]
  }

  function ChainLines(c: Chain): seq<string> {
    HeaderLines(c) + HookLines(c) + RuleLines(c.rules) + FooterLines()
  }

  /** A blank line between chains. */
  function GapLines(rest: seq<Chain>): seq<string> {
    if rest == [] then [] else [""]
  }

  function ChainsLines(chains: seq<Chain>): seq<string> {
    if chains == [] then []
    else ChainLines(chains[0]) + GapLines(chains[1..]) + ChainsLines(chains[1..])
  }

  /** `nft list table firecracker`. */
  function RenderTable(chains: seq<Chain>): string {
    Unlines([TABLE_HEADER] + ChainsLines(chains) + ["}"])
  }

  predicate HasRule(chains: seq<Chain>) {
    exists k :: 0 <= k < |chains| && chains[k].rules != []
  }

  /** Lines that belong to the table and chain structure. */
  predicate Structural(trimmed: string) {
    || trimmed == ""
    || StartsWith(trimmed, "table ")
    || StartsWith(trimmed, "chain ")
    || StartsWith(trimmed, "type ")
    || trimmed == "}"
    || trimmed == "{"
  }

  predicate AllStructural(lines: seq<string>) {
    forall k :: 0 <= k < |lines| ==> Structural(Trim(lines[k]))
  }

  method HasNftablesRules(output: string) returns (r: bool)
    ensures r <==> !AllStructural(Lines(output))
  {
    var lines := Lines(output);
    for n := 0 to |lines|
      invariant AllStructural(lines[..n])
    {
      var trimmed := Trim(lines[n]);
      if !Structural(trimmed) {
        return true;
      }
      StructuralSoFar(lines, n);
    }
    assert lines[..|lines|] == lines;
    return false;
  }

  lemma StructuralSoFar(lines: seq<string>, n: nat)
    requires n < |lines| && AllStructural(lines[..n]) && Structural(Trim(lines[n]))
    ensures AllStructural(lines[..n + 1])
  {
    assert forall k :: 0 <= k < n ==> lines[..n + 1][k] == lines[..n][k];
  }

  /** Each rendered line, unindented, is the text that was indented. */
  lemma Unindented(pad: string, s: string)
    requires pad in {"", "\t", "\t\t"} && Solid(s)
    ensures Trim(pad + s) == s
  {
    TrimIndent(pad, s);
  }

  lemma RuleIsNoStructure(r: Rule)
    requires RuleOk(r)
    ensures Solid(RuleText(r)) && !Structural(RuleText(r))
    ensures IsLine("\t\t" + RuleText(r))
  {
    var s := RuleText(r);
    RuleIsInline(r);
    match r
    case Masquerade(_, _, _, _) =>
      assert s[0] == 'i' && s[|s| - 1] == 'e';
      NoStructure(s);
    case Forward(_, _) =>
      assert s[0] == 'i' && s[|s| - 1] == 't';
      NoStructure(s);
    case Other(first, rest) => OtherIsNoStructure(first, rest);
    PaddedIsLine("\t\t", s);
  }

  lemma RuleIsInline(r: Rule)
    requires RuleOk(r)
    ensures Inline(RuleText(r)) && |RuleText(r)| > if r.Other? then 0 else 1
  {
    match r
    case Masquerade(_, _, packets, bytes) =>
      DigitsInline(packets);
      DigitsInline(bytes);
    case Forward(_, _) =>
    case Other(first, rest) => OtherIsInline(first, rest);
  }

  lemma OtherIsInline(first: string, rest: string)
    requires OtherOk(first, rest)
    ensures Inline(OtherText(first, rest)) && OtherText(first, rest) != ""
  {
    assert '\n' !in first by { assert IsSpace('\n'); }
  }

  lemma SameHead(s: string, p: string)
    requires s != [] && p != []
    ensures StartsWith(s, p) ==> s[0] == p[0]
  {
  }

  /** No structural line starts with an i. */
  lemma NoStructure(s: string)
    requires |s| > 1 && s[0] == 'i'
    ensures !Structural(s)
  {
    SameHead(s, "table ");
    SameHead(s, "chain ");
    SameHead(s, "type ");
  }

  /** A line with another first word is no structural one. */
  lemma OtherIsNoStructure(first: string, rest: string)
    requires OtherOk(first, rest)
    ensures Solid(OtherText(first, rest)) && !Structural(OtherText(first, rest))
  {
    SpacedHead(first, rest, "table");
    SpacedHead(first, rest, "chain");
    SpacedHead(first, rest, "type");
    assert rest != "" ==> OtherText(first, rest)[|first|] == ' ' && |OtherText(first, rest)| > 1;
  }

  lemma SpacedHead(first: string, rest: string, word: string)
    requires first != "" && NoSpace(first) && NoSpace(word)
    ensures StartsWith(OtherText(first, rest), word + " ") ==> first == word
  {
    var s := OtherText(first, rest);
    if StartsWith(s, word + " ") {
      assert forall k :: 0 <= k < |word| ==> s[k] == (word + " ")[k] == word[k];
      assert s[|word|] == (word + " ")[|word|] == ' ';
      assert forall k :: 0 <= k < |first| ==> s[k] == first[k];
      assert rest != "" ==> s[|first|] == ' ';
    }
  }

  lemma DigitsInline(n: nat)
    ensures Inline(Decimal.Print(n))
  {
    var d := Decimal.Print(n);
    assert forall k :: 0 <= k < |d| ==> Decimal.IsDigit(d[k]);
  }

  lemma RuleLine(r: Rule)
    requires RuleOk(r)
    ensures IsLine("\t\t" + RuleText(r)) && !Structural(Trim("\t\t" + RuleText(r)))
  {
    RuleIsNoStructure(r);
    Unindented("\t\t", RuleText(r));
  }

  predicate AreLines(lines: seq<string>) {
    forall k :: 0 <= k < |lines| ==> IsLine(lines[k])
  }

  lemma {:induction false} RuleLinesAre(rules: seq<Rule>)
    requires forall k :: 0 <= k < |rules| ==> RuleOk(rules[k])
    ensures AreLines(RuleLines(rules))
    ensures AllStructural(RuleLines(rules)) <==> rules == []
  {
    if rules != [] {
      RuleLinesAre(rules[1..]);
      RuleLine(rules[0]);
      FirstLine("\t\t" + RuleText(rules[0]), RuleLines(rules[1..]));
    }
  }

  lemma FirstLine(line: string, rest: seq<string>)
    requires IsLine(line) && !Structural(Trim(line)) && AreLines(rest)
    ensures AreLines([line] + rest) && !AllStructural([line] + rest)
  {
    var lines := [line] + rest;
    assert lines[0] == line;
    assert forall k :: 0 < k < |lines| ==> lines[k] == rest[k - 1];
  }

  lemma OneLine(line: string, trimmed: string)
    requires IsLine(line) && Trim(line) == trimmed && Structural(trimmed)
    ensures AreLines([line]) && AllStructural([line])
  {
    var lines := [line];
    assert AreLines(lines);
    forall k | 0 <= k < |lines|
      ensures Trim(lines[k]) == trimmed
    {
    }
    assert AllStructural(lines);
  }

  lemma PaddedIsLine(pad: string, body: string)
    requires Inline(pad) && Inline(body) && body != [] && !IsSpace(body[|body| - 1])
    ensures IsLine(pad + body)
  {
    assert (pad + body)[|pad + body| - 1] == body[|body| - 1];
  }

  lemma IndentedLine(pad: string, body: string)
    requires pad in {"", "\t", "\t\t"} && Solid(body) && Inline(body) && Structural(body)
    ensures AreLines([pad + body]) && AllStructural([pad + body])
  {
    Unindented(pad, body);
    PaddedIsLine(pad, body);
    OneLine(pad + body, body);
  }

  lemma HeaderLine(c: Chain)
    requires ChainOk(c)
    ensures AreLines(HeaderLines(c)) && AllStructural(HeaderLines(c))
  {
    var s := "chain " + c.name + " {";
    assert s[..6] == "chain ";
    IndentedLine("\t", s);
  }

  lemma HookLine(c: Chain)
    requires ChainOk(c)
    ensures AreLines(HookLines(c)) && AllStructural(HookLines(c))
  {
    var s := "type " + c.hook + ";";
    assert s[..5] == "type ";
    IndentedLine("\t\t", s);
  }

  lemma FooterLine()
    ensures AreLines(FooterLines()) && AllStructural(FooterLines())
  {
    IndentedLine("\t", "}");
  }

  lemma AppendLines(a: seq<string>, b: seq<string>)
    ensures AreLines(a + b) <==> AreLines(a) && AreLines(b)
    ensures AllStructural(a + b) <==> AllStructural(a) && AllStructural(b)
  {
    var c := a + b;
    assert forall k :: 0 <= k < |a| ==> c[k] == a[k];
    assert forall k :: 0 <= k < |b| ==> c[|a| + k] == b[k];
  }

  lemma AppendFour(a: seq<string>, b: seq<string>, c: seq<string>, d: seq<string>)
    ensures AreLines(a + b + c + d) <==> AreLines(a) && AreLines(b) && AreLines(c) && AreLines(d)
    ensures AllStructural(a + b + c + d)
            <==> AllStructural(a) && AllStructural(b) && AllStructural(c) && AllStructural(d)
  {
    AppendLines(a, b);
    AppendLines(a + b, c);
    AppendLines(a + b + c, d);
  }

  lemma AppendThree(a: seq<string>, b: seq<string>, c: seq<string>)
    ensures AreLines(a + b + c) <==> AreLines(a) && AreLines(b) && AreLines(c)
    ensures AllStructural(a + b + c) <==> AllStructural(a) && AllStructural(b) && AllStructural(c)
  {
    AppendLines(a, b);
    AppendLines(a + b, c);
  }

  lemma GapLine(rest: seq<Chain>)
    ensures AreLines(GapLines(rest)) && AllStructural(GapLines(rest))
  {
    if rest != [] { OneLine("", ""); }
  }

  lemma ChainLinesAre(c: Chain)
    requires ChainOk(c)
    ensures AreLines(ChainLines(c))
    ensures AllStructural(ChainLines(c)) <==> c.rules == []
  {
    HeaderLine(c);
    HookLine(c);
    RuleLinesAre(c.rules);
    FooterLine();
    AppendFour(HeaderLines(c), HookLines(c), RuleLines(c.rules), FooterLines());
  }

  lemma {:induction false} ChainsLinesAre(chains: seq<Chain>)
    requires forall k :: 0 <= k < |chains| ==> ChainOk(chains[k])
    ensures AreLines(ChainsLines(chains))
    ensures AllStructural(ChainsLines(chains)) <==> !HasRule(chains)
  {
    if chains != [] {
      ChainsLinesAre(chains[1..]);
      ChainLinesAre(chains[0]);
      GapLine(chains[1..]);
      AppendThree(ChainLines(chains[0]), GapLines(chains[1..]), ChainsLines(chains[1..]));
      HasRuleSplit(chains);
    }
  }

  lemma HasRuleSplit(chains: seq<Chain>)
    requires chains != []
    ensures HasRule(chains) <==> chains[0].rules != [] || HasRule(chains[1..])
  {
    if HasRule(chains) && chains[0].rules == [] {
      var k :| 0 <= k < |chains| && chains[k].rules != [];
      assert chains[1..][k - 1].rules != [];
    }
    if HasRule(chains[1..]) {
      var k :| 0 <= k < |chains[1..]| && chains[1..][k].rules != [];
      assert chains[k + 1].rules != [];
    }
  }

  const TABLE_HEADER: string := "table ip firecracker {"

  lemma FrameLine(line: string)
    requires Solid(line) && Structural(line) && IsLine(line)
    ensures AreLines([line]) && AllStructural([line])
  {
    assert "" + line == line;
    Unindented("", line);
    OneLine(line, line);
  }

  lemma TableLines(header: string, close: string, chains: seq<Chain>)
    requires Solid(header) && Structural(header) && IsLine(header)
    requires Solid(close) && Structural(close) && IsLine(close)
    requires forall k :: 0 <= k < |chains| ==> ChainOk(chains[k])
    ensures !AllStructural(Lines(Unlines([header] + ChainsLines(chains) + [close]))) <==> HasRule(chains)
  {
    var body := ChainsLines(chains);
    ChainsLinesAre(chains);
    FrameLine(header);
    FrameLine(close);
    AppendLines([header], body);
    AppendLines([header] + body, [close]);
    LinesOfUnlines([header] + body + [close]);
  }

  lemma HeaderIsLine()
    ensures Solid(TABLE_HEADER) && Structural(TABLE_HEADER) && IsLine(TABLE_HEADER)
  {
    assert TABLE_HEADER[..6] == "table ";
  }

  /** On any rendered table, the recogniser answers whether some chain holds a rule. */
  lemma TableRecognised(chains: seq<Chain>)
    requires forall k :: 0 <= k < |chains| ==> ChainOk(chains[k])
    ensures !AllStructural(Lines(RenderTable(chains))) <==> HasRule(chains)
  {
    HeaderIsLine();
    TableLines(TABLE_HEADER, "}", chains);
  }

  // ── Link listings ──

  /** One line of `ip -o link show`: an index, the name shown, and the rest. */
  datatype Link = Link(index: nat, name: string, rest: string)

  /** Linux allows no white space, no `:` and no empty interface name. */
  predicate LinkOk(l: Link) {
    l.name != "" && NoSpace(l.name) && ':' !in l.name && IsLine(l.rest)
  }

  function LinkLine(l: Link): string {
    Decimal.Print(l.index) + ": " + l.name + ": " + l.rest
  }

  function LinkLines(links: seq<Link>): seq<string> {
    if links == [] then [] else [LinkLine(links[0])] + LinkLines(links[1..])
  }

  function RenderLinks(links: seq<Link>): string {
    Unlines(LinkLines(links))
  }

  /** `trim_end_matches(':')`. */
  function TrimColons(s: string): string {
    if s != "" && s[|s| - 1] == ':' then TrimColons(s[..|s| - 1]) else s
  }

  /** "fc" and then only digits. */
  predicate IsFcName(name: string): (r: bool)
    ensures r <==> |name| >= 2 && name[0] == 'f' && name[1] == 'c'
                   && forall k :: 2 <= k < |name| ==> '0' <= name[k] <= '9'
  {
    assert |name| >= 2 ==> (name[..2] == "fc" <==> name[0] == 'f' && name[1] == 'c');
    assert |name| >= 2 ==> forall k :: 2 <= k < |name| ==> name[k] == name[2..][k - 2];
    StartsWith(name, "fc") && Decimal.AllDigits(name[2..])
  }

  function FcTapOf(line: string): Option<string> {
    var words := Words(line);
    if |words| < 2 then None
    else
      var name := TrimColons(words[1]);
      if IsFcName(name) then Some(name) else None
  }

  function FcTaps(lines: seq<string>): seq<string> {
    if lines == [] then []
    else
      match FcTapOf(lines[0])
      case None => FcTaps(lines[1..])
      case Some(name) => [name] + FcTaps(lines[1..])
  }

  function ParseFcTapDevices(output: string): seq<string> {
    FcTaps(Lines(output))
  }

  /** The fc-named interfaces of a list, in order. */
  function FcNames(links: seq<Link>): seq<string> {
    if links == [] then []
    else (if IsFcName(links[0].name) then [links[0].name] else []) + FcNames(links[1..])
  }

  lemma TrimOneColon(name: string)
    requires ':' !in name
    ensures TrimColons(name + ":") == name
  {
    assert (name + ":")[..|name|] == name;
  }

  lemma IndexWord(n: nat)
    ensures NoSpace(Decimal.Print(n) + ":")
  {
    var d := Decimal.Print(n);
    assert forall k :: 0 <= k < |d| ==> Decimal.IsDigit(d[k]);
  }

  lemma LinkRecognised(l: Link)
    requires LinkOk(l)
    ensures FcTapOf(LinkLine(l)) == if IsFcName(l.name) then Some(l.name) else None
  {
    var index, name := Decimal.Print(l.index) + ":", l.name + ":";
    IndexWord(l.index);
    assert LinkLine(l) == index + ([' '] + (name + ([' '] + l.rest)));
    SecondWord(index, name, l.rest);
    TrimOneColon(l.name);
  }

  lemma SecondWord(first: string, second: string, rest: string)
    requires first != [] && NoSpace(first) && second != [] && NoSpace(second)
    ensures var words := Words(first + ([' '] + (second + ([' '] + rest))));
            |words| >= 2 && words[1] == second
  {
    WordsCons(first, [' '] + (second + ([' '] + rest)));
    WordsSkip(' ', second + ([' '] + rest));
    WordsCons(second, [' '] + rest);
  }

  lemma LinkIsLine(l: Link)
    requires LinkOk(l)
    ensures IsLine(LinkLine(l))
  {
    DigitsInline(l.index);
    var line := LinkLine(l);
    assert '\n' !in l.name by { assert IsSpace('\n'); }
    if l.rest == "" { assert line[|line| - 1] == ' '; }
    else { assert line[|line| - 1] == l.rest[|l.rest| - 1]; }
  }

  lemma {:induction false} LinkLinesRecognised(links: seq<Link>)
    requires forall k :: 0 <= k < |links| ==> LinkOk(links[k])
    ensures AreLines(LinkLines(links)) && FcTaps(LinkLines(links)) == FcNames(links)
  {
    if links != [] {
      LinkLinesRecognised(links[1..]);
      LinkRecognised(links[0]);
      LinkIsLine(links[0]);
      OneMoreTap(LinkLine(links[0]), LinkLines(links[1..]));
    }
  }

  lemma OneMoreTap(line: string, rest: seq<string>)
    requires IsLine(line) && AreLines(rest)
    ensures AreLines([line] + rest)
    ensures FcTaps([line] + rest) ==
            match FcTapOf(line) case None => FcTaps(rest) case Some(name) => [name] + FcTaps(rest)
  {
    assert ([line] + rest)[0] == line && ([line] + rest)[1..] == rest;
  }

  /** On any rendered listing the parser returns exactly the fc-named interfaces, in order. */
  lemma ListingRecognised(links: seq<Link>)
    requires forall k :: 0 <= k < |links| ==> LinkOk(links[k])
    ensures ParseFcTapDevices(RenderLinks(links)) == FcNames(links)
  {
    LinkLinesRecognised(links);
    LinesOfUnlines(LinkLines(links));
  }

  /** Every tap the pool can name is recognised. */
  lemma TapNameIsFc(i: nat)
    ensures IsFcName(Pool.TapName(i))
  {
    assert Pool.TapName(i)[2..] == Decimal.Print(i);
  }
}
