/** The laws asked of a cipher can be met: a toy one, with a plaintext form for every state map. */
module CipherWitness {
  import opened Basics
  import opened Base64
  import opened Envelopes
  import opened StoreRuns

  /** A value read off the front of some bytes, and the bytes after it. */
  datatype Parsed<T> = Nope | Got(value: T, rest: seq<byte>)

  function Unary(n: nat): (b: seq<byte>)
  {
    if n == 0 then [0] else [1] + Unary(n - 1)
  }

  function TakeUnary(b: seq<byte>): (r: Parsed<nat>)
    ensures r.Got? ==> |r.rest| < |b|
  {
    if b == [] then Nope
    else if b[0] == 0 then Got(0, b[1..])
    else match TakeUnary(b[1..]) case Nope => Nope case Got(n, rest) => Got(n + 1, rest)
  }

  lemma {:induction false} UnaryBack(n: nat, rest: seq<byte>)
    ensures TakeUnary(Unary(n) + rest) == Got(n, rest)
  {
    if n == 0 {
      assert ([0] + rest)[1..] == rest;
    } else {
      UnaryBack(n - 1, rest);
      assert (Unary(n) + rest)[1..] == Unary(n - 1) + rest;
    }
  }

  function Text(s: string): (b: seq<byte>)
  {
    if s == [] then [] else Unary(s[0] as nat) + Text(s[1..])
  }

  function TakeText(n: nat, b: seq<byte>): (r: Parsed<string>)
    ensures r.Got? ==> |r.rest| <= |b|
    decreases n
  {
    if n == 0 then Got([], b)
    else
      match TakeUnary(b)
      case Nope => Nope
      case Got(code, after) =>
        if !(code < 0xD800 || 0xE000 <= code < 0x11_0000) then Nope
        else
          match TakeText(n - 1, after) case Nope => Nope case Got(s, rest) => Got([code as char] + s, rest)
  }

  lemma {:induction false} TextBack(s: string, rest: seq<byte>)
    ensures TakeText(|s|, Text(s) + rest) == Got(s, rest)
  {
    if s == [] {
      assert Text(s) + rest == rest;
    } else {
      UnaryBack(s[0] as nat, Text(s[1..]) + rest);
      assert Text(s) + rest == Unary(s[0] as nat) + (Text(s[1..]) + rest);
      TextBack(s[1..], rest);
      assert [s[0]] + s[1..] == s;
    }
  }

  function Entry(k: string, v: seq<byte>): (b: seq<byte>)
  {
    Unary(|k|) + (Text(k) + (Unary(|v|) + v))
  }

  function TakeEntry(b: seq<byte>): (r: Parsed<(string, seq<byte>)>)
    ensures r.Got? ==> |r.rest| < |b|
  {
    match TakeUnary(b)
    case Nope => Nope
    case Got(n, text) =>
      match TakeText(n, text)
      case Nope => Nope
      case Got(k, sized) =>
        match TakeUnary(sized)
        case Nope => Nope
        case Got(m, data) => if |data| < m then Nope else Got((k, data[..m]), data[m..])
  }

  lemma EntryBack(k: string, v: seq<byte>, rest: seq<byte>)
    ensures TakeEntry(Entry(k, v) + rest) == Got((k, v), rest)
  {
    var data := v + rest;
    var sized := Unary(|v|) + data;
    UnaryBack(|v|, data);
    TextBack(k, sized);
    UnaryBack(|k|, Text(k) + sized);
    assert Entry(k, v) + rest == Unary(|k|) + (Text(k) + sized);
    assert data[..|v|] == v && data[|v|..] == rest;
  }

  ghost function AnyKey(m: StateMap): (k: string)
    requires m != map[]
    ensures k in m
  {
    assert m.Keys != {};
    var k :| k in m;
    k
  }

  ghost function Listed(m: StateMap): (b: seq<byte>)
    decreases |m|
  {
    if m == map[] then [0]
    else
      var k := AnyKey(m);
      assert (m - {k}).Keys == m.Keys - {k};
      [1] + (Entry(k, m[k]) + Listed(m - {k}))
  }

  function Parse(b: seq<byte>): (r: Option<StateMap>)
    decreases |b|
  {
    if b == [] then None
    else if b[0] == 0 then Some(map[])
    else
      match TakeEntry(b[1..])
      case Nope => None
      case Got(pair, rest) => var m := Parse(rest); if m.None? then None else Some(m.value[pair.0 := pair.1])
  }

  lemma {:induction false} ListedBack(m: StateMap)
    ensures Parse(Listed(m)) == Some(m)
    decreases |m|
  {
    if m != map[] {
      var k := AnyKey(m);
      assert (m - {k}).Keys == m.Keys - {k};
      var rest := Listed(m - {k});
      assert Listed(m)[1..] == Entry(k, m[k]) + rest;
      EntryBack(k, m[k], rest);
      ListedBack(m - {k});
      assert (m - {k})[k := m[k]] == m;
    }
  }

  const TAG: seq<byte> := seq(OVERHEAD, i => 0)

  /** A lawful cipher exists, so no theorem about the store is empty. */
  lemma LawfulCipherExists() returns (c: Cipher)
    ensures Lawful(c)
  {
    c := Cipher(
      (k, n, p) => p + TAG,
      (k, n, s) => if |s| < OVERHEAD then None else Some(s[..|s| - OVERHEAD]),
      m => Listed(m),
      b => Parse(b));
    forall k: nat, n: seq<byte>, p: seq<byte>
      ensures c.unseal(k, n, c.seal(k, n, p)) == Some(p) && |c.seal(k, n, p)| == |p| + OVERHEAD
    {
      assert (p + TAG)[..|p|] == p;
    }
    forall m ensures c.parse(c.marshal(m)) == Some(m) {
      ListedBack(m);
    }
  }
}
