/** SSH key authorisation (src/ssh/authorized_keys.rs). Base64 key decoding is a parameter. */
module AuthorizedKeys {
  import opened Prelude
  import opened Text

  /** russh public keys; an RSA key also carries the hash its signatures use. */
  datatype PublicKey =
    | Ed25519(point: seq<u8>)
    | Rsa(key: seq<u8>, hash: nat)
    | Ec(curvePoint: seq<u8>)

  /** Equal key material of the same kind; the RSA hash does not matter. */
  function KeysEqual(a: PublicKey, b: PublicKey): (r: bool)
    ensures r <==> a == b || (a.Rsa? && b.Rsa? && a.key == b.key)
  {
    match (a, b)
    case (Ed25519(p), Ed25519(q)) => p == q
    case (Rsa(p, _), Rsa(q, _)) => p == q
    case (Ec(p), Ec(q)) => p == q
    case _ => false
  }

  type Decoder = string -> Option<PublicKey>

  /** The key of an authorized_keys line: its second token, decoded; none for blank lines and comments. */
  function LineKey(decode: Decoder, line: string): Option<PublicKey> {
    var trimmed := Trim(line);
    var parts := Words(trimmed);
    if trimmed == "" || trimmed[0] == '#' || |parts| < 2 then None else decode(parts[1])
  }

  predicate Grants(decode: Decoder, key: PublicKey, line: string) {
    var k := LineKey(decode, line);
    k.Some? && KeysEqual(key, k.value)
  }

  /** Some line grants the key. */
  predicate Authorized(decode: Decoder, key: PublicKey, lines: seq<string>) {
    exists i :: 0 <= i < |lines| && Grants(decode, key, lines[i])
  }

  /** Never an error: malformed and undecodable lines are skipped. */
  method IsKeyAuthorized(decode: Decoder, key: PublicKey, lines: seq<string>) returns (r: Result<bool, string>)
    ensures r == Ok(Authorized(decode, key, lines))
  {
    if lines == [] {
      return Ok(false);
    }
    for i := 0 to |lines|
      invariant forall j :: 0 <= j < i ==> !Grants(decode, key, lines[j])
    {
      var trimmed := Trim(lines[i]);
      if trimmed == "" || trimmed[0] == '#' {
        continue;
      }
      var parts := Words(trimmed);
      if |parts| < 2 {
        continue;
      }
      match decode(parts[1])
      case Some(authKey) =>
        if KeysEqual(key, authKey) {
          assert Grants(decode, key, lines[i]);
          return Ok(true);
        }
      case None =>
    }
    return Ok(false);
  }

  /** The order of the lines does not matter. */
  lemma PermutationInvariant(decode: Decoder, key: PublicKey, a: seq<string>, b: seq<string>)
    requires multiset(a) == multiset(b)
    ensures Authorized(decode, key, a) == Authorized(decode, key, b)
  {
    if Authorized(decode, key, a) { GrantedElsewhere(decode, key, a, b); }
    if Authorized(decode, key, b) { GrantedElsewhere(decode, key, b, a); }
  }

  lemma GrantedElsewhere(decode: Decoder, key: PublicKey, a: seq<string>, b: seq<string>)
    requires multiset(a) == multiset(b) && Authorized(decode, key, a)
    ensures Authorized(decode, key, b)
  {
    var i :| 0 <= i < |a| && Grants(decode, key, a[i]);
    assert a[i] in multiset(a);
    assert a[i] in multiset(b);
    var j :| 0 <= j < |b| && b[j] == a[i];
  }

  lemma AuthorizedAppend(decode: Decoder, key: PublicKey, a: seq<string>, b: seq<string>)
    ensures Authorized(decode, key, a + b) <==> Authorized(decode, key, a) || Authorized(decode, key, b)
  {
    var c := a + b;
    assert forall i :: 0 <= i < |a| ==> c[i] == a[i];
    assert forall i :: 0 <= i < |b| ==> c[|a| + i] == b[i];
    if Authorized(decode, key, c) {
      var i :| 0 <= i < |c| && Grants(decode, key, c[i]);
      assert i < |a| ==> Grants(decode, key, a[i]);
      assert i >= |a| ==> Grants(decode, key, b[i - |a|]);
    }
    if Authorized(decode, key, a) {
      var i :| 0 <= i < |a| && Grants(decode, key, a[i]);
      assert Grants(decode, key, c[i]);
    }
    if Authorized(decode, key, b) {
      var i :| 0 <= i < |b| && Grants(decode, key, b[i]);
      assert Grants(decode, key, c[|a| + i]);
    }
  }

  /** A line that grants nothing can be inserted anywhere. */
  lemma InsertionInvariant(decode: Decoder, key: PublicKey, a: seq<string>, line: string, b: seq<string>)
    requires !Grants(decode, key, line)
    ensures Authorized(decode, key, a + [line] + b) == Authorized(decode, key, a + b)
  {
    AuthorizedAppend(decode, key, a + [line], b);
    AuthorizedAppend(decode, key, a, [line]);
    AuthorizedAppend(decode, key, a, b);
    assert !Authorized(decode, key, [line]);
  }

  lemma {:induction false} BlankTrims(s: string)
    requires AllSpace(s)
    ensures Trim(s) == ""
  {
    if s != "" { BlankTrims(s[1..]); }
  }

  /** Blank lines, comments at any indentation and lines that do not decode grant nothing to anyone. */
  lemma IdleLines(decode: Decoder, key: PublicKey, line: string)
    requires AllSpace(line) || (Trim(line) != "" && Trim(line)[0] == '#') || LineKey(decode, line).None?
    ensures !Grants(decode, key, line)
  {
    if AllSpace(line) { BlankTrims(line); }
  }

  // ── The format of a line ──

  /** `<type> <data> [comment]`: two words after optional white space, and anything after the second. */
  predicate IsEntry(line: string, pad: string, kind: string, gap: string, data: string, tail: string) {
    && line == pad + kind + gap + data + tail
    && AllSpace(pad) && AllSpace(gap) && gap != ""
    && kind != "" && NoSpace(kind) && data != "" && NoSpace(data)
    && (tail == "" || IsSpace(tail[0]))
  }

  lemma EntryWords(line: string, pad: string, kind: string, gap: string, data: string, tail: string)
    requires IsEntry(line, pad, kind, gap, data, tail)
    ensures Words(line) == [kind, data] + Words(tail)
  {
    var rest := gap + (data + tail);
    assert line == pad + (kind + rest);
    WordsBehind(pad, kind, rest);
    WordsBehind(gap, data, tail);
  }

  /** Such a line grants exactly the keys equal to what its second word decodes to, unless it is a comment. */
  lemma EntryGrants(decode: Decoder, key: PublicKey,
                    line: string, pad: string, kind: string, gap: string, data: string, tail: string)
    requires IsEntry(line, pad, kind, gap, data, tail)
    ensures Grants(decode, key, line) <==>
            kind[0] != '#' && decode(data).Some? && KeysEqual(key, decode(data).value)
  {
    EntryWords(line, pad, kind, gap, data, tail);
    WordsOfTrim(line);
  }

  lemma TwoWords(line: string) returns (pad: string, kind: string, gap: string, data: string, tail: string)
    requires |Words(line)| >= 2
    ensures IsEntry(line, pad, kind, gap, data, tail)
  {
    var rest;
    kind := Words(line)[0];
    pad, rest := FirstWord(line);
    data := Words(rest)[0];
    gap, tail := FirstWord(rest);
    assert rest[0] == (gap + data)[0];
    assert !IsSpace((data + gap)[0]);
  }

  /** And a line that grants anything is of that form. */
  lemma GrantIsEntry(decode: Decoder, key: PublicKey, line: string)
    returns (pad: string, kind: string, gap: string, data: string, tail: string)
    requires Grants(decode, key, line)
    ensures IsEntry(line, pad, kind, gap, data, tail)
  {
    WordsOfTrim(line);
    pad, kind, gap, data, tail := TwoWords(line);
  }

  /**
    Authorised keys, without trimming or splitting: those equal to the decoded second word of some
    line that begins with no `#`.
   */
  lemma AuthorizedIff(decode: Decoder, key: PublicKey, lines: seq<string>)
    ensures Authorized(decode, key, lines) <==>
            exists i, pad, kind, gap, data, tail ::
              && 0 <= i < |lines| && IsEntry(lines[i], pad, kind, gap, data, tail) && kind[0] != '#'
              && decode(data).Some? && KeysEqual(key, decode(data).value)
  {
    if Authorized(decode, key, lines) {
      var i :| 0 <= i < |lines| && Grants(decode, key, lines[i]);
      var pad, kind, gap, data, tail := GrantIsEntry(decode, key, lines[i]);
      EntryGrants(decode, key, lines[i], pad, kind, gap, data, tail);
    }
    if i, pad, kind, gap, data, tail :|
      0 <= i < |lines| && IsEntry(lines[i], pad, kind, gap, data, tail) && kind[0] != '#'
      && decode(data).Some? && KeysEqual(key, decode(data).value)
    {
      EntryGrants(decode, key, lines[i], pad, kind, gap, data, tail);
      assert Grants(decode, key, lines[i]);
    }
  }
}
