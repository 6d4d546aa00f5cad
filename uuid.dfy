/**
 * `generateUUID` and the test database name built from it. The sixteen
 * bytes that `crypto/rand` would supply, and whether that read failed,
 * are inputs. The version and variant fields are those of RFC 4122
 * (version 4 in section 4.1.3, the RFC 4122 variant in section 4.1.1); the
 * groups are joined with `_` rather than the `-` of the string form in
 * section 3 of RFC 4122, so that the token can sit inside an unquoted SQL
 * identifier.
 */
module Uuid {
  import opened Wrappers
  import opened Errors
  import opened Hex

  /** The version and variant stamped into 16 random bytes, as the two in-place assignments do. */
  function WithVersionAndVariant(b: seq<bv8>): (u: seq<bv8>)
    requires |b| == 16
    ensures |u| == 16
    ensures u[6] >> 4 == 0x4 && u[6] & 0x0F == b[6] & 0x0F
    ensures u[8] >> 6 == 0x2 && u[8] & 0x3F == b[8] & 0x3F
    ensures forall i :: 0 <= i < 16 && i != 6 && i != 8 ==> u[i] == b[i]
  {
    b[6 := (b[6] & 0x0F) | 0x40][8 := (b[8] & 0x3F) | 0x80]
  }

  /** Bytes whose version nibble is 4 and whose variant bits are `10`. */
  predicate IsVersion4(u: seq<bv8>)
    requires |u| == 16
  {
    u[6] >> 4 == 0x4 && u[8] >> 6 == 0x2
  }

  /** Stamping leaves exactly the version-4 byte strings as they are, so stamping twice is stamping once. */
  lemma StampFixedPoints(b: seq<bv8>)
    requires |b| == 16
    ensures IsVersion4(WithVersionAndVariant(b))
    ensures WithVersionAndVariant(b) == b <==> IsVersion4(b)
    ensures WithVersionAndVariant(WithVersionAndVariant(b)) == WithVersionAndVariant(b)
  {
  }

  predicate IsSeparatorIndex(i: int) {
    i == 8 || i == 13 || i == 18 || i == 23
  }

  /** `%x_%x_%x_%x_%x` over the byte groups 0-4, 4-6, 6-8, 8-10 and 10-16. */
  function Format(u: seq<bv8>): (s: string)
    requires |u| == 16
    ensures |s| == 36
    ensures forall i :: 0 <= i < 36 ==> (s[i] == '_' <==> IsSeparatorIndex(i))
    ensures forall i :: 0 <= i < 36 && !IsSeparatorIndex(i) ==> IsLowerHexDigit(s[i])
  {
    Encode(u[..4]) + "_" + Encode(u[4..6]) + "_" + Encode(u[6..8]) + "_" + Encode(u[8..10]) + "_" + Encode(u[10..])
  }

  /** Reads an identifier back into its sixteen bytes. */
  function Parse(s: string): (r: Option<seq<bv8>>)
    ensures r.Some? ==> |r.value| == 16
  {
    if |s| != 36 || s[8] != '_' || s[13] != '_' || s[18] != '_' || s[23] != '_' then None
    else
      match (Decode(s[..8]), Decode(s[9..13]), Decode(s[14..18]), Decode(s[19..23]), Decode(s[24..]))
      case (Some(a), Some(b), Some(c), Some(d), Some(e)) => Some(a + b + c + d + e)
      case _ => None
  }

  /** The five groups of a 36-character identifier, where the separators are. */
  lemma JoinGroups(a: string, b: string, c: string, d: string, e: string)
    requires |a| == 8 && |b| == 4 && |c| == 4 && |d| == 4 && |e| == 12
    ensures var s := a + "_" + b + "_" + c + "_" + d + "_" + e;
      && |s| == 36 && s[8] == '_' && s[13] == '_' && s[18] == '_' && s[23] == '_'
      && s[..8] == a && s[9..13] == b && s[14..18] == c && s[19..23] == d && s[24..] == e
  {
  }

  lemma SplitGroups(s: string)
    requires |s| == 36 && s[8] == '_' && s[13] == '_' && s[18] == '_' && s[23] == '_'
    ensures s == s[..8] + "_" + s[9..13] + "_" + s[14..18] + "_" + s[19..23] + "_" + s[24..]
  {
  }

  lemma JoinBytes(a: seq<bv8>, b: seq<bv8>, c: seq<bv8>, d: seq<bv8>, e: seq<bv8>)
    requires |a| == 4 && |b| == 2 && |c| == 2 && |d| == 2 && |e| == 6
    ensures var u := a + b + c + d + e;
      |u| == 16 && u[..4] == a && u[4..6] == b && u[6..8] == c && u[8..10] == d && u[10..] == e
  {
  }

  lemma SplitBytes(u: seq<bv8>)
    requires |u| == 16
    ensures u == u[..4] + u[4..6] + u[6..8] + u[8..10] + u[10..]
  {
  }

  lemma ParseFormat(u: seq<bv8>)
    requires |u| == 16
    ensures Parse(Format(u)) == Some(u)
  {
    JoinGroups(Encode(u[..4]), Encode(u[4..6]), Encode(u[6..8]), Encode(u[8..10]), Encode(u[10..]));
    DecodeEncode(u[..4]);
    DecodeEncode(u[4..6]);
    DecodeEncode(u[6..8]);
    DecodeEncode(u[8..10]);
    DecodeEncode(u[10..]);
    SplitBytes(u);
  }

  lemma FormatParse(s: string)
    requires Parse(s).Some?
    ensures Format(Parse(s).value) == s
  {
    var a, b, c, d, e := Decode(s[..8]).value, Decode(s[9..13]).value, Decode(s[14..18]).value,
                         Decode(s[19..23]).value, Decode(s[24..]).value;
    var u := a + b + c + d + e;
    assert Parse(s).value == u;
    EncodeDecode(s[..8]);
    EncodeDecode(s[9..13]);
    EncodeDecode(s[14..18]);
    EncodeDecode(s[19..23]);
    EncodeDecode(s[24..]);
    JoinBytes(a, b, c, d, e);
    SplitGroups(s);
    assert Format(u) == Encode(a) + "_" + Encode(b) + "_" + Encode(c) + "_" + Encode(d) + "_" + Encode(e);
  }

  /** Two byte strings give the same identifier only when they are equal. */
  lemma FormatInjective(u: seq<bv8>, v: seq<bv8>)
    requires |u| == 16 && |v| == 16
    ensures Format(u) == Format(v) <==> u == v
  {
    if Format(u) == Format(v) {
      ParseFormat(u);
      ParseFormat(v);
    }
  }

  /**
   * `generateUUID`: on a failed read, the empty string and the read error
   * wrapped with `%w`; otherwise the stamped bytes, formatted.
   */
  method GenerateUUID(random: seq<bv8>, readErr: Option<Error>) returns (s: string, err: Option<Error>)
    requires |random| == 16
    ensures readErr.Some? ==> s == "" && err == Some(Wrapped("failed to generate UUID: ", readErr.value))
    ensures readErr.None? ==> err.None?
    ensures readErr.None? ==> s == Format(WithVersionAndVariant(random))
  {
    var uuid := new bv8[16](i requires 0 <= i < 16 => random[i]);
    if readErr.Some? {
      return "", Some(Wrapped("failed to generate UUID: ", readErr.value));
    }
    uuid[6] := (uuid[6] & 0x0F) | 0x40;
    uuid[8] := (uuid[8] & 0x3F) | 0x80;
    assert uuid[..] == WithVersionAndVariant(random);
    s := Format(uuid[..]);
    err := None;
  }

  const TestDBPrefix := "test_"

  /** The name of the test database: the prefix, then the identifier. */
  function TestDBName(uuid: string): (r: string)
    ensures |r| == |TestDBPrefix| + |uuid| && r[..|TestDBPrefix|] == TestDBPrefix && r[|TestDBPrefix|..] == uuid
  {
    TestDBPrefix + uuid
  }

  /** A character that may appear in an unquoted lower-case SQL identifier. */
  predicate IsIdentifierChar(c: char) {
    'a' <= c <= 'z' || '0' <= c <= '9' || c == '_'
  }

  /**
   * Whatever the random bytes, the generated name is 41 characters long,
   * starts with a letter and uses only lower-case letters, digits and `_`,
   * so it needs no quoting in `CREATE DATABASE` or `DROP DATABASE`.
   */
  lemma TestDBNameIsIdentifier(random: seq<bv8>)
    requires |random| == 16
    ensures var name := TestDBName(Format(WithVersionAndVariant(random)));
      && |name| == 41 && 'a' <= name[0] <= 'z'
      && forall i :: 0 <= i < |name| ==> IsIdentifierChar(name[i])
  {
  }

  /** A generated name is never the administrative database `postgres`. */
  lemma TestDBNameIsNotAdmin(uuid: string)
    ensures TestDBName(uuid) != "postgres"
  {
    assert TestDBName(uuid)[0] == 't';
  }

  /** Two runs give the same database name exactly when their stamped bytes agree. */
  lemma TestDBNameInjective(r: seq<bv8>, q: seq<bv8>)
    requires |r| == 16 && |q| == 16
    ensures TestDBName(Format(WithVersionAndVariant(r))) == TestDBName(Format(WithVersionAndVariant(q)))
            <==> WithVersionAndVariant(r) == WithVersionAndVariant(q)
  {
    var a, b := Format(WithVersionAndVariant(r)), Format(WithVersionAndVariant(q));
    if TestDBName(a) == TestDBName(b) {
      assert a == TestDBName(a)[5..] && b == TestDBName(b)[5..];
    }
    FormatInjective(WithVersionAndVariant(r), WithVersionAndVariant(q));
  }
}
