/**
 The encrypted envelope and the state map inside it, as token streams: strict
 field checks that do not depend on field order, canonical base64 values, and
 size limits that hold on both the writing and the reading side.
 */
module Envelopes {
  import opened Basics
  import opened Base64

  const FORMAT := "tailscale-dart-state"
  const VERSION := 1
  const ALGORITHM := "secretbox-xsalsa20-poly1305"
  const NONCE_SIZE: nat := 24
  const OVERHEAD: nat := 16
  const MAX_PLAINTEXT: nat := 16 * 1024 * 1024
  const MAX_CIPHERTEXT: nat := MAX_PLAINTEXT + OVERHEAD
  const MAX_ENVELOPE: nat := 24 * 1024 * 1024

  datatype Value = Text(text: string) | Integer(n: int) | OtherValue

  /** The five field names the parser switches on, and every other one. */
  datatype Name = Format | Version | Algorithm | Nonce | Ciphertext | Unknown(text: string)

  datatype Field = Field(name: Name, value: Value)

  datatype Envelope = Envelope(nonce: seq<byte>, ciphertext: seq<byte>)

  datatype Parsed = Parsed(envelope: Envelope) | InvalidFormat | Unsupported | Oversized

  /** A field of a known name with a value of its type; integers outside the machine range do not decode. */
  predicate WellTyped(f: Field)
  {
    if f.name == Version then f.value.Integer? && -0x8000_0000_0000_0000 <= f.value.n < 0x8000_0000_0000_0000
    else !f.name.Unknown? && f.value.Text?
  }

  predicate Present(fields: seq<Field>, name: Name)
  {
    exists i :: 0 <= i < |fields| && fields[i].name == name
  }

  predicate Distinct(fields: seq<Field>)
  {
    forall i, j :: 0 <= i < j < |fields| ==> fields[i].name != fields[j].name
  }

  /** The five fields, each exactly once and each of its type. */
  predicate WellFormed(fields: seq<Field>)
  {
    && Distinct(fields) && (forall i :: 0 <= i < |fields| ==> WellTyped(fields[i]))
    && Present(fields, Format) && Present(fields, Version) && Present(fields, Algorithm)
    && Present(fields, Nonce) && Present(fields, Ciphertext)
  }

  /** What the values of a well-formed envelope decode to. */
  function DecodeValues(format: string, version: int, algorithm: string, nonce: string, ciphertext: string): (r: Parsed)
    ensures r.Parsed? ==>
      && |r.envelope.nonce| == NONCE_SIZE && OVERHEAD <= |r.envelope.ciphertext| <= MAX_CIPHERTEXT
      && nonce == Encode(r.envelope.nonce) && ciphertext == Encode(r.envelope.ciphertext)
  {
    var n, c := DecodeCanonical(nonce), DecodeCanonical(ciphertext);
    if format != FORMAT || version != VERSION || algorithm != ALGORITHM then Unsupported
    else if n.None? || |n.value| != NONCE_SIZE then InvalidFormat
    else if c.None? || |c.value| < OVERHEAD then InvalidFormat
    else if |c.value| > MAX_CIPHERTEXT then Oversized
    else Parsed(Envelope(n.value, c.value))
  }

  /** The value of a field that is present. */
  ghost function ValueOf(fields: seq<Field>, name: Name): (v: Value)
    requires Present(fields, name)
    ensures exists i :: 0 <= i < |fields| && fields[i] == Field(name, v)
  {
    var i :| 0 <= i < |fields| && fields[i].name == name;
    fields[i].value
  }

  lemma ValueIsUnique(fields: seq<Field>, i: nat)
    requires Distinct(fields) && i < |fields|
    ensures Present(fields, fields[i].name) && ValueOf(fields, fields[i].name) == fields[i].value
  {
    assert Present(fields, fields[i].name);
  }

  lemma TypesOf(fields: seq<Field>)
    requires WellFormed(fields)
    ensures ValueOf(fields, Format).Text? && ValueOf(fields, Algorithm).Text? && ValueOf(fields, Nonce).Text?
    ensures ValueOf(fields, Ciphertext).Text? && ValueOf(fields, Version).Integer?
  {
  }

  /** The meaning of an envelope, without reference to the order of its fields. */
  ghost function Meaning(fields: seq<Field>): (r: Parsed)
  {
    if !WellFormed(fields) then InvalidFormat
    else
      TypesOf(fields);
      DecodeValues(ValueOf(fields, Format).text, ValueOf(fields, Version).n, ValueOf(fields, Algorithm).text,
                   ValueOf(fields, Nonce).text, ValueOf(fields, Ciphertext).text)
  }

  /** The first k fields agree that a name carries this value. */
  predicate Reads(fields: seq<Field>, k: nat, name: Name, v: Value)
    requires k <= |fields|
  {
    forall i :: 0 <= i < k && fields[i].name == name ==> fields[i].value == v
  }

  /** parseEncryptedStateEnvelope after the object was opened: one pass with a set of names seen. */
  method Parse(fields: seq<Field>) returns (r: Parsed)
    ensures r == Meaning(fields)
  {
    hide DecodeValues;
    var seen: set<Name> := {};
    var format, algorithm, nonce, ciphertext, version := "", "", "", "", 0;
    for k := 0 to |fields|
      invariant Distinct(fields[..k]) && (forall i :: 0 <= i < k ==> WellTyped(fields[i]))
      invariant forall name :: name in seen <==> Present(fields[..k], name)
      invariant Reads(fields, k, Format, Text(format)) && Reads(fields, k, Version, Integer(version))
      invariant Reads(fields, k, Algorithm, Text(algorithm)) && Reads(fields, k, Nonce, Text(nonce))
      invariant Reads(fields, k, Ciphertext, Text(ciphertext))
    {
      var f := fields[k];
      if f.name in seen || !WellTyped(f) { return InvalidFormat; }
      NamesSeen(fields, k);
      seen := seen + {f.name};
      match f.name
      case Format => format := f.value.text;
      case Version => version := f.value.n;
      case Algorithm => algorithm := f.value.text;
      case Nonce => nonce := f.value.text;
      case Ciphertext => ciphertext := f.value.text;
    }
    assert fields[..|fields|] == fields;
    if Format !in seen || Version !in seen || Algorithm !in seen || Nonce !in seen || Ciphertext !in seen {
      return InvalidFormat;
    }
    TypesOf(fields);
    r := DecodeValues(format, version, algorithm, nonce, ciphertext);
  }

  lemma NamesSeen(fields: seq<Field>, k: nat)
    requires k < |fields|
    ensures forall name :: Present(fields[..k + 1], name) <==> Present(fields[..k], name) || name == fields[k].name
  {
    forall name | Present(fields[..k], name) ensures Present(fields[..k + 1], name) {
      var i :| 0 <= i < k && fields[..k][i].name == name;
      assert fields[..k + 1][i].name == name;
    }
    assert fields[..k + 1][k] == fields[k];
    forall name | Present(fields[..k + 1], name) && name != fields[k].name ensures Present(fields[..k], name) {
      var i :| 0 <= i < k + 1 && fields[..k + 1][i].name == name;
      assert fields[..k][i].name == name;
    }
  }

  // ------------------------------------------------------------------- order

  /** `after` is `before` read in the order p; q is the way back. */
  ghost predicate Reordered(before: seq<Field>, after: seq<Field>, p: seq<nat>, q: seq<nat>)
  {
    && |before| == |after| == |p| == |q|
    && (forall i :: 0 <= i < |p| ==> p[i] < |p| && q[i] < |p| && p[q[i]] == i && q[p[i]] == i)
    && (forall i :: 0 <= i < |p| ==> after[i] == before[p[i]])
  }

  lemma ReorderedBack(before: seq<Field>, after: seq<Field>, p: seq<nat>, q: seq<nat>)
    requires Reordered(before, after, p, q)
    ensures Reordered(after, before, q, p)
  {
  }

  lemma ReorderedWellFormed(before: seq<Field>, after: seq<Field>, p: seq<nat>, q: seq<nat>)
    requires Reordered(before, after, p, q) && WellFormed(before)
    ensures WellFormed(after)
  {
    forall name | Present(before, name) ensures Present(after, name) {
      var i :| 0 <= i < |before| && before[i].name == name;
      assert after[q[i]].name == name;
    }
    forall i, j | 0 <= i < j < |after| ensures after[i].name != after[j].name {
      assert p[i] != p[j];
    }
  }

  /** Parsing does not depend on the order of the fields. */
  lemma OrderIsIrrelevant(before: seq<Field>, after: seq<Field>, p: seq<nat>, q: seq<nat>)
    requires Reordered(before, after, p, q)
    ensures Meaning(before) == Meaning(after)
  {
    ReorderedBack(before, after, p, q);
    if WellFormed(before) || WellFormed(after) {
      if WellFormed(before) { ReorderedWellFormed(before, after, p, q); }
      if WellFormed(after) { ReorderedWellFormed(after, before, q, p); }
      forall name | Present(before, name) && Present(after, name)
        ensures ValueOf(before, name) == ValueOf(after, name)
      {
        var i :| 0 <= i < |after| && after[i] == Field(name, ValueOf(after, name));
        ValueIsUnique(before, p[i]);
      }
    }
  }

  // ------------------------------------------------------------------ limits

  function FieldsOf(e: Envelope): (fields: seq<Field>)
  {
    [Field(Format, Text(FORMAT)), Field(Version, Integer(VERSION)), Field(Algorithm, Text(ALGORITHM)),
     Field(Nonce, Text(Encode(e.nonce))), Field(Ciphertext, Text(Encode(e.ciphertext)))]
  }

  /** marshalEncryptedStateEnvelope */
  function Marshal(e: Envelope): (text: string)
  {
    "{\"format\":\"" + FORMAT + "\",\"version\":1,\"algorithm\":\"" + ALGORITHM
    + "\",\"nonce\":\"" + Encode(e.nonce) + "\",\"ciphertext\":\"" + Encode(e.ciphertext) + "\"}"
  }

  lemma MarshalLength(e: Envelope)
    ensures |Marshal(e)| == 114 + |Encode(e.nonce)| + |Encode(e.ciphertext)|
  {
    hide Encode;
    var head := "{\"format\":\"" + FORMAT + "\",\"version\":1,\"algorithm\":\"" + ALGORITHM + "\",\"nonce\":\"";
    assert |head| == 11 + 20 + 27 + 27 + 11;
  }

  /** A marshalled envelope parses back to itself. */
  lemma EnvelopeRoundTrip(e: Envelope)
    requires |e.nonce| == NONCE_SIZE && OVERHEAD <= |e.ciphertext| <= MAX_CIPHERTEXT
    ensures Meaning(FieldsOf(e)) == Parsed(e)
  {
    var fields := FieldsOf(e);
    CanonicalExactlyInverts(Encode(e.nonce), e.nonce);
    CanonicalExactlyInverts(Encode(e.ciphertext), e.ciphertext);
    hide DecodeCanonical, Encode;
    assert fields[0].name == Format && fields[1].name == Version && fields[2].name == Algorithm;
    assert fields[3].name == Nonce && fields[4].name == Ciphertext;
    assert WellFormed(fields);
    ValueIsUnique(fields, 0);
    ValueIsUnique(fields, 1);
    ValueIsUnique(fields, 2);
    ValueIsUnique(fields, 3);
    ValueIsUnique(fields, 4);
  }

  /**
   A plaintext within its 16 MiB limit, sealed with the cipher's overhead, fits
   the 24 MiB envelope and is accepted by every limit when it is read back.
   */
  lemma LimitsAgree(plaintext: nat, e: Envelope)
    requires plaintext <= MAX_PLAINTEXT && |e.nonce| == NONCE_SIZE && |e.ciphertext| == plaintext + OVERHEAD
    ensures |Marshal(e)| <= MAX_ENVELOPE && Meaning(FieldsOf(e)) == Parsed(e)
  {
    hide Encode, Meaning;
    EnvelopeRoundTrip(e);
    MarshalLength(e);
    assert |Encode(e.ciphertext)| <= 4 * ((MAX_CIPHERTEXT + 2) / 3) == 22369644;
  }

  // --------------------------------------------------------------- state map

  /** One member of the authenticated object; None for a value that is not a string. */
  datatype Member = Member(key: string, encoded: Option<string>)

  predicate Decodes(m: Member)
  {
    m.encoded.Some? && DecodeCanonical(m.encoded.value).Some?
  }

  predicate MapOk(members: seq<Member>)
  {
    && (forall i :: 0 <= i < |members| ==> Decodes(members[i]))
    && (forall i, j :: 0 <= i < j < |members| ==> members[i].key != members[j].key)
  }

  /** The map holds exactly the members, each key with the bytes its text encodes. */
  ghost predicate Lists(members: seq<Member>, state: map<string, seq<byte>>)
  {
    && (forall i :: 0 <= i < |members| ==>
          members[i].key in state && members[i].encoded == Some(Encode(state[members[i].key])))
    && (forall key :: key in state ==> exists i :: 0 <= i < |members| && members[i].key == key)
    && (forall i, j :: 0 <= i < j < |members| ==> members[i].key != members[j].key)
  }

  /** parseEncryptedStateMap: the result is the one map the members list, in whatever order they come. */
  method ParseMap(members: seq<Member>) returns (r: Option<map<string, seq<byte>>>)
    ensures r.Some? <==> MapOk(members)
    ensures r.Some? ==> Lists(members, r.value)
  {
    hide DecodeCanonical, Encode;
    var state: map<string, seq<byte>> := map[];
    for k := 0 to |members|
      invariant MapOk(members[..k]) && Lists(members[..k], state)
    {
      var m := members[k];
      assert members[..k + 1][k] == m;
      if m.key in state {
        var i :| 0 <= i < |members[..k]| && members[..k][i].key == m.key;
        assert members[i].key == members[k].key;
        return None;
      }
      if m.encoded.None? { return None; }
      var value := DecodeCanonical(m.encoded.value);
      if value.None? { return None; }
      CanonicalExactlyInverts(m.encoded.value, value.value);
      ListsOneMore(members[..k], state, m, value.value);
      assert members[..k + 1] == members[..k] + [m];
      state := state[m.key := value.value];
    }
    assert members[..|members|] == members;
    return Some(state);
  }

  lemma ListsOneMore(members: seq<Member>, state: map<string, seq<byte>>, m: Member, value: seq<byte>)
    requires MapOk(members) && Lists(members, state)
    requires m.key !in state && m.encoded == Some(Encode(value)) && Decodes(m)
    ensures MapOk(members + [m]) && Lists(members + [m], state[m.key := value])
  {
    hide DecodeCanonical, Encode;
    var all, more := members + [m], state[m.key := value];
    forall key | key in more ensures exists i :: 0 <= i < |all| && all[i].key == key {
      if key == m.key {
        assert all[|members|].key == key;
      } else {
        var i :| 0 <= i < |members| && members[i].key == key;
        assert all[i].key == key;
      }
    }
    forall i | 0 <= i < |members| ensures members[i].key != m.key {
      assert members[i].key in state;
    }
  }

  /** Two maps listed by the same members are equal, so parsing inverts every way of listing a map. */
  lemma ListedMapsAgree(members: seq<Member>, a: map<string, seq<byte>>, b: map<string, seq<byte>>)
    requires Lists(members, a) && Lists(members, b)
    ensures a == b
  {
    hide DecodeCanonical, Encode;
    forall key | key in a ensures key in b && a[key] == b[key] {
      var i :| 0 <= i < |members| && members[i].key == key;
      CanonicalExactlyInverts(members[i].encoded.value, a[key]);
      CanonicalExactlyInverts(members[i].encoded.value, b[key]);
    }
    forall key | key in b ensures key in a {
      var i :| 0 <= i < |members| && members[i].key == key;
    }
  }

  lemma ListedIsOk(members: seq<Member>, state: map<string, seq<byte>>)
    requires Lists(members, state)
    ensures MapOk(members)
  {
    forall i | 0 <= i < |members| ensures Decodes(members[i]) {
      CanonicalExactlyInverts(members[i].encoded.value, state[members[i].key]);
    }
  }
}
