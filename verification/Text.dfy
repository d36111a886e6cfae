/** The Rust `str` operations the recognisers are made of: lines, trim, split_whitespace, find. */
module Text {
  import opened Prelude

  /** `char::is_whitespace`: the Unicode White_Space property. */
  predicate IsSpace(c: char) {
    var n := c as int;
    9 <= n <= 13 || n == 0x20 || n == 0x85 || n == 0xA0 || n == 0x1680 || 0x2000 <= n <= 0x200A
    || n == 0x2028 || n == 0x2029 || n == 0x202F || n == 0x205F || n == 0x3000
  }

  predicate NoSpace(s: string) {
    forall k :: 0 <= k < |s| ==> !IsSpace(s[k])
  }

  predicate AllSpace(s: string) {
    forall k :: 0 <= k < |s| ==> IsSpace(s[k])
  }

  predicate StartsWith(s: string, p: string) {
    |p| <= |s| && s[..|p|] == p
  }

  predicate EndsWith(s: string, p: string) {
    |p| <= |s| && s[|s| - |p|..] == p
  }

  // ── find ──

  /** Position of the first occurrence of `p`. */
  function Find(s: string, p: string): (r: Option<nat>)
    ensures r.Some? ==> r.value + |p| <= |s| && s[r.value..r.value + |p|] == p
    ensures r.Some? ==> forall j :: 0 <= j < r.value ==> !StartsWith(s[j..], p)
    ensures r.None? ==> forall j :: 0 <= j <= |s| ==> !StartsWith(s[j..], p)
  {
    if StartsWith(s, p) then Some(0)
    else if s == [] then None
    else
      match Find(s[1..], p)
      case None =>
        assert forall j :: 1 <= j <= |s| ==> s[j..] == s[1..][j - 1..];
        None
      case Some(k) =>
        assert forall j :: 1 <= j <= k + 1 ==> s[j..] == s[1..][j - 1..];
        Some(k + 1)
  }

  // ── lines ──

  /** `str::lines`: split at `\n`, dropping one `\r` before it; no line after a final `\n`. */
  function Lines(s: string): seq<string>
  {
    match Find(s, "\n")
    case None => if s == [] then [] else [s]
    case Some(k) => [StripCr(s[..k])] + Lines(s[k + 1..])
  }

  function StripCr(s: string): string {
    if s != [] && s[|s| - 1] == '\r' then s[..|s| - 1] else s
  }

  /** A line that a newline-terminated rendering gives back unchanged. */
  predicate IsLine(s: string) {
    '\n' !in s && (s != "" ==> s[|s| - 1] != '\r')
  }

  function Unlines(lines: seq<string>): string {
    if lines == [] then "" else lines[0] + "\n" + Unlines(lines[1..])
  }

  lemma FindNewline(a: string, b: string)
    requires '\n' !in a
    ensures Find(a + "\n" + b, "\n") == Some(|a|)
  {
    var s := a + "\n" + b;
    var r := Find(s, "\n");
    assert StartsWith(s[|a|..], "\n") by { assert s[|a|] == '\n'; }
    assert r.Some?;
    assert forall j :: 0 <= j < |a| ==> s[j..j + 1][0] == a[j];
    assert s[r.value..r.value + 1][0] == '\n';
  }

  /** A line may also end in `\r\n`, and the last one in nothing. */
  lemma LinesCons(line: string, rest: string)
    requires IsLine(line)
    ensures Lines(line + "\n" + rest) == [line] + Lines(rest) == Lines(line + "\r" + "\n" + rest)
    ensures Lines(line) == if line == "" then [] else [line]
  {
    FindNewline(line, rest);
    FindNewline(line + "\r", rest);
    var s, s' := line + "\n" + rest, line + "\r" + "\n" + rest;
    assert s[..|line|] == line && s[|line| + 1..] == rest;
    assert s'[..|line| + 1] == line + "\r" && s'[|line| + 2..] == rest && (line + "\r")[..|line|] == line;
    assert forall j :: 0 <= j < |line| ==> line[j..j + 1][0] == line[j];
  }

  lemma {:induction false} LinesOfUnlines(lines: seq<string>)
    requires forall l :: l in lines ==> IsLine(l)
    ensures Lines(Unlines(lines)) == lines
  {
    if lines != [] {
      var rest := Unlines(lines[1..]);
      var s := Unlines(lines);
      assert s == lines[0] + "\n" + rest;
      assert IsLine(lines[0]);
      FindNewline(lines[0], rest);
      assert s[..|lines[0]|] == lines[0] && s[|lines[0]| + 1..] == rest;
      assert forall l :: l in lines[1..] ==> l in lines;
      LinesOfUnlines(lines[1..]);
    }
  }

  // ── trim ──

  function TrimStart(s: string): (r: string)
    ensures r == [] || !IsSpace(r[0])
    ensures EndsWith(s, r)
  {
    if s != [] && IsSpace(s[0]) then
      var r := TrimStart(s[1..]);
      assert s[|s| - |r|..] == s[1..][|s| - 1 - |r|..];
      r
    else
      s
  }

  function TrimEnd(s: string): (r: string)
    ensures r == [] || !IsSpace(r[|r| - 1])
    ensures StartsWith(s, r)
  {
    if s != [] && IsSpace(s[|s| - 1]) then
      var r := TrimEnd(s[..|s| - 1]);
      assert s[..|r|] == s[..|s| - 1][..|r|];
      r
    else
      s
  }

  /** `str::trim`. */
  function Trim(s: string): string {
    TrimEnd(TrimStart(s))
  }

  /** Begins and ends with a character that is not white space. */
  predicate Solid(s: string) {
    s != [] && !IsSpace(s[0]) && !IsSpace(s[|s| - 1])
  }

  lemma {:induction false} TrimIndent(pad: string, s: string)
    requires forall k :: 0 <= k < |pad| ==> IsSpace(pad[k])
    requires Solid(s)
    ensures Trim(pad + s) == s
  {
    if pad == [] {
      assert pad + s == s;
    } else {
      assert (pad + s)[1..] == pad[1..] + s;
      TrimIndent(pad[1..], s);
    }
  }

  /** Trimming takes white space off both ends and leaves none there. */
  lemma TrimSplits(s: string) returns (before: string, after: string)
    ensures s == before + Trim(s) + after && AllSpace(before) && AllSpace(after)
    ensures Trim(s) == "" || Solid(Trim(s))
  {
    before := TrimStartSplits(s);
    after := TrimEndSplits(TrimStart(s));
    if Trim(s) != "" { assert Trim(s)[0] == TrimStart(s)[0]; }
  }

  lemma {:induction false} TrimStartSplits(s: string) returns (before: string)
    ensures s == before + TrimStart(s) && AllSpace(before)
  {
    if s != "" && IsSpace(s[0]) {
      before := TrimStartSplits(s[1..]);
      before := [s[0]] + before;
    } else {
      before := "";
    }
  }

  lemma {:induction false} TrimEndSplits(s: string) returns (after: string)
    ensures s == TrimEnd(s) + after && AllSpace(after)
  {
    if s != "" && IsSpace(s[|s| - 1]) {
      after := TrimEndSplits(s[..|s| - 1]);
      after := after + [s[|s| - 1]];
    } else {
      after := "";
    }
  }

  // ── split_whitespace ──

  /** Length of the leading run of non-space characters. */
  function WordLength(s: string): (n: nat)
    ensures n <= |s| && NoSpace(s[..n]) && (n < |s| ==> IsSpace(s[n]))
  {
    if s == [] || IsSpace(s[0]) then 0
    else
      var n := WordLength(s[1..]);
      assert s[..n + 1] == [s[0]] + s[1..][..n];
      n + 1
  }

  /** `str::split_whitespace`: the maximal runs of non-space characters. */
  function Words(s: string): (ws: seq<string>)
    ensures forall w :: w in ws ==> w != [] && NoSpace(w)
    decreases |s|
  {
    if s == [] then []
    else if IsSpace(s[0]) then Words(s[1..])
    else
      var n := WordLength(s);
      assert n > 0;
      [s[..n]] + Words(s[n..])
  }

  lemma {:induction false} WordLengthOf(w: string, rest: string)
    requires NoSpace(w) && (rest == [] || IsSpace(rest[0]))
    ensures WordLength(w + rest) == |w|
  {
    if w == [] {
      assert w + rest == rest;
    } else {
      assert (w + rest)[1..] == w[1..] + rest;
      WordLengthOf(w[1..], rest);
    }
  }

  /** A word followed by a space is split off as it is. */
  lemma WordsCons(w: string, rest: string)
    requires w != [] && NoSpace(w) && (rest == [] || IsSpace(rest[0]))
    ensures Words(w + rest) == [w] + Words(rest)
  {
    WordLengthOf(w, rest);
    assert (w + rest)[..|w|] == w && (w + rest)[|w|..] == rest;
  }

  lemma WordsSkip(c: char, rest: string)
    requires IsSpace(c)
    ensures Words([c] + rest) == Words(rest)
  {
    assert ([c] + rest)[1..] == rest;
  }

  lemma {:induction false} WordsOfPadded(pad: string, rest: string)
    requires AllSpace(pad)
    ensures Words(pad + rest) == Words(rest)
  {
    if pad == "" {
      assert pad + rest == rest;
    } else {
      assert pad + rest == [pad[0]] + (pad[1..] + rest);
      WordsSkip(pad[0], pad[1..] + rest);
      WordsOfPadded(pad[1..], rest);
    }
  }

  lemma WordsBehind(pad: string, w: string, rest: string)
    requires AllSpace(pad) && w != [] && NoSpace(w) && (rest == [] || IsSpace(rest[0]))
    ensures Words(pad + (w + rest)) == [w] + Words(rest)
  {
    WordsOfPadded(pad, w + rest);
    WordsCons(w, rest);
  }

  /** What `split_whitespace` yields first lies behind white space and before white space or the end. */
  lemma {:induction false} FirstWord(s: string) returns (pad: string, rest: string)
    requires Words(s) != []
    ensures s == pad + Words(s)[0] + rest && AllSpace(pad) && (rest == "" || IsSpace(rest[0]))
    ensures Words(s)[0] != "" && NoSpace(Words(s)[0]) && Words(rest) == Words(s)[1..]
  {
    assert Words(s)[0] in Words(s);
    if IsSpace(s[0]) {
      pad, rest := FirstWord(s[1..]);
      pad := [s[0]] + pad;
    } else {
      pad, rest := "", s[WordLength(s)..];
      assert s == s[..WordLength(s)] + rest;
    }
  }

  /** White space at the end makes no word. */
  lemma {:induction false} WordsPadded(s: string, pad: string)
    requires AllSpace(pad)
    ensures Words(s + pad) == Words(s)
    decreases |s|
  {
    if Words(s) == [] {
      NoWords(s);
      WordsOfPadded(s + pad, "");
      assert s + pad + "" == s + pad;
    } else {
      var before, rest := FirstWord(s);
      var w := Words(s)[0];
      assert s + pad == before + (w + (rest + pad));
      WordsBehind(before, w, rest + pad);
      WordsPadded(rest, pad);
    }
  }

  lemma {:induction false} NoWords(s: string)
    requires Words(s) == []
    ensures AllSpace(s)
  {
    if s != "" {
      NoWords(s[1..]);
    }
  }

  /** Trimming does not change the words, and the trimmed text begins with the first of them. */
  lemma WordsOfTrim(s: string)
    ensures Words(Trim(s)) == Words(s)
    ensures Trim(s) == "" <==> Words(s) == []
    ensures Trim(s) != "" ==> Trim(s)[0] == Words(s)[0][0]
  {
    var before, after := TrimSplits(s);
    WordsInside(before, Trim(s), after);
    StartsWithWord(Trim(s));
  }

  lemma WordsInside(before: string, s: string, after: string)
    requires AllSpace(before) && AllSpace(after)
    ensures Words(before + s + after) == Words(s)
  {
    assert before + s + after == before + (s + after);
    WordsOfPadded(before, s + after);
    WordsPadded(s, after);
  }

  lemma StartsWithWord(s: string)
    requires s == "" || !IsSpace(s[0])
    ensures s == "" <==> Words(s) == []
    ensures s != "" ==> Words(s)[0] != "" && s[0] == Words(s)[0][0]
  {
  }
}
