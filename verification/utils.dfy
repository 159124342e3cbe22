/** utils.py: the 12-character code that names checks and bills (the unpadded base64url
    encoding of RFC 4648, section 5, of a random UUID, cut to 12 characters) and the lookup of
    the wallet unit class for a currency. */
module Utils {
  import opened Wrappers

  type Byte = x: int | 0 <= x < 256

  /** Character `i` of the base64url alphabet `A-Z a-z 0-9 - _` (RFC 4648, section 5, table 2). */
  function Sym(i: int): (c: char)
    requires 0 <= i < 64
  {
    if i < 26 then ('A' as int + i) as char
    else if i < 52 then ('a' as int + (i - 26)) as char
    else if i < 62 then ('0' as int + (i - 52)) as char
    else if i == 62 then '-'
    else '_'
  }

  /** A character of the base64url alphabet. */
  predicate UrlSafe(c: char)
  {
    ('A' <= c <= 'Z') || ('a' <= c <= 'z') || ('0' <= c <= '9') || c == '-' || c == '_'
  }

  /** The position of an alphabet character: the inverse of `Sym`. */
  function SymIndex(c: char): (i: int)
    requires UrlSafe(c)
    ensures 0 <= i < 64 && Sym(i) == c
  {
    if 'A' <= c <= 'Z' then c as int - 'A' as int
    else if 'a' <= c <= 'z' then c as int - 'a' as int + 26
    else if '0' <= c <= '9' then c as int - '0' as int + 52
    else if c == '-' then 62
    else 63
  }

  /** Every alphabet position gives an alphabet character, and distinct positions distinct ones. */
  lemma SymUrlSafe(i: int)
    requires 0 <= i < 64
    ensures UrlSafe(Sym(i)) && SymIndex(Sym(i)) == i
  {
  }

  /** The four characters of one full 24-bit group, six bits each, most significant first. */
  function Group(x: Byte, y: Byte, z: Byte): string
  {
    [Sym(x / 4), Sym((x % 4) * 16 + y / 16), Sym((y % 16) * 4 + z / 64), Sym(z % 64)]
  }

  /** `base64.urlsafe_b64encode`: full groups, then a final one or two bytes padded with `=`. */
  function Encode(b: seq<Byte>): string
  {
    if |b| == 0 then ""
    else if |b| == 1 then [Sym(b[0] / 4), Sym((b[0] % 4) * 16)] + "=="
    else if |b| == 2 then [Sym(b[0] / 4), Sym((b[0] % 4) * 16 + b[1] / 16), Sym((b[1] % 16) * 4)] + "="
    else Group(b[0], b[1], b[2]) + Encode(b[3..])
  }

  /** `.rstrip('=')`. */
  function StripPadding(s: string): (r: string)
    ensures r <= s
    ensures r == [] || r[|r| - 1] != '='
    ensures forall i :: |r| <= i < |s| ==> s[i] == '='
  {
    if s == [] || s[|s| - 1] != '=' then s else StripPadding(s[..|s| - 1])
  }

  /** Python's `s[:n]`, which is the whole string when it is shorter. */
  function Take(s: string, n: nat): (r: string)
    ensures r <= s && |r| == if |s| < n then |s| else n
  {
    if |s| <= n then s else s[..n]
  }

  /** `generate_unique_code()` given the 16 bytes of `uuid.uuid4().bytes`. */
  function UniqueCode(uuid: seq<Byte>): string
  {
    Take(StripPadding(Encode(uuid)), 12)
  }

  /** A whole number of groups encodes to four alphabet characters per three bytes. */
  lemma {:induction false} EncodeFullGroups(b: seq<Byte>)
    requires |b| % 3 == 0
    ensures |Encode(b)| == |b| / 3 * 4
    ensures forall i :: 0 <= i < |Encode(b)| ==> UrlSafe(Encode(b)[i])
  {
    if |b| > 0 {
      EncodeFullGroups(b[3..]);
      EncodeStep(b);
      ThirdsStep(|b|);
      var g := Group(b[0], b[1], b[2]);
      var r := Encode(b[3..]);
      SymUrlSafe(b[0] / 4);
      SymUrlSafe((b[0] % 4) * 16 + b[1] / 16);
      SymUrlSafe((b[1] % 16) * 4 + b[2] / 64);
      SymUrlSafe(b[2] % 64);
      forall i | 0 <= i < |g + r|
        ensures UrlSafe((g + r)[i])
      {
        if i >= 4 {
          assert (g + r)[i] == r[i - 4];
        }
      }
    }
  }

  lemma ThirdsStep(n: nat)
    requires n >= 3 && n % 3 == 0
    ensures (n - 3) % 3 == 0 && 4 + (n - 3) / 3 * 4 == n / 3 * 4
  {
  }

  /** Encoding splits at a group boundary. */
  lemma {:induction false} EncodeAppend(a: seq<Byte>, b: seq<Byte>)
    requires |a| % 3 == 0
    ensures Encode(a + b) == Encode(a) + Encode(b)
  {
    if |a| == 0 {
      assert a + b == b;
    } else {
      assert (a + b)[3..] == a[3..] + b;
      EncodeAppend(a[3..], b);
    }
  }

  /** Sixteen bytes encode to 22 alphabet characters and two `=`. */
  lemma EncodeSixteen(uuid: seq<Byte>)
    requires |uuid| == 16
    ensures |Encode(uuid)| == 24
    ensures Encode(uuid)[22..] == "=="
    ensures Encode(uuid)[..22] == Encode(uuid[..15]) + Encode(uuid[15..])[..2]
  {
    assert uuid == uuid[..15] + uuid[15..];
    EncodeAppend(uuid[..15], uuid[15..]);
    EncodeFullGroups(uuid[..15]);
  }

  /** The code is 12 characters of the base64url alphabet, none of them `=`, and it is the
      encoding of the first nine bytes: the remaining seven bytes do not show in it. */
  lemma UniqueCodeShape(uuid: seq<Byte>)
    requires |uuid| == 16
    ensures |UniqueCode(uuid)| == 12
    ensures forall i :: 0 <= i < 12 ==> UrlSafe(UniqueCode(uuid)[i]) && UniqueCode(uuid)[i] != '='
    ensures UniqueCode(uuid) == Encode(uuid[..9])
  {
    var e := Encode(uuid);
    EncodeSixteen(uuid);
    var tail := Encode(uuid[15..]);
    SymUrlSafe(uuid[15] / 4);
    SymUrlSafe((uuid[15] % 4) * 16);
    assert e[21] == tail[1] && tail[1] == Sym((uuid[15] % 4) * 16);
    assert e[..23] == e[..22] + ['='];
    assert StripPadding(e) == StripPadding(e[..23]);
    assert StripPadding(e[..23]) == e[..22] by {
      assert e[..23][..22] == e[..22];
    }
    assert uuid[..15] == uuid[..9] + uuid[9..15];
    EncodeAppend(uuid[..9], uuid[9..15]);
    EncodeFullGroups(uuid[..9]);
    assert UniqueCode(uuid) == e[..22][..12];
  }

  /** The three bytes that four alphabet positions stand for. */
  function Ungroup(i0: int, i1: int, i2: int, i3: int): seq<Byte>
    requires 0 <= i0 < 64 && 0 <= i1 < 64 && 0 <= i2 < 64 && 0 <= i3 < 64
  {
    [i0 * 4 + i1 / 16, (i1 % 16) * 16 + i2 / 4, (i2 % 4) * 64 + i3]
  }

  /** Base64url decoding of whole groups (RFC 4648, section 5); `None` for a character outside
      the alphabet or a length that is not a multiple of four. */
  function Decode(s: string): (r: Option<seq<Byte>>)
    ensures r.Some? ==> |r.value| == |s| / 4 * 3
  {
    if |s| == 0 then Some([])
    else if |s| < 4 || !UrlSafe(s[0]) || !UrlSafe(s[1]) || !UrlSafe(s[2]) || !UrlSafe(s[3]) then None
    else match Decode(s[4..])
      case None => None
      case Some(rest) =>
        assert |s| / 4 == |s[4..]| / 4 + 1;
        Some(Ungroup(SymIndex(s[0]), SymIndex(s[1]), SymIndex(s[2]), SymIndex(s[3])) + rest)
  }

  lemma GroupRoundTrip(x: Byte, y: Byte, z: Byte)
    ensures Ungroup(x / 4, (x % 4) * 16 + y / 16, (y % 16) * 4 + z / 64, z % 64) == [x, y, z]
  {
    var i1 := (x % 4) * 16 + y / 16;
    var i2 := (y % 16) * 4 + z / 64;
    assert i1 / 16 == x % 4 && i1 % 16 == y / 16;
    assert i2 / 4 == y % 16 && i2 % 4 == z / 64;
  }

  lemma DecodeStep(g: string, t: string)
    requires |g| == 4 && UrlSafe(g[0]) && UrlSafe(g[1]) && UrlSafe(g[2]) && UrlSafe(g[3])
    requires Decode(t).Some?
    ensures Decode(g + t) == Some(Ungroup(SymIndex(g[0]), SymIndex(g[1]), SymIndex(g[2]), SymIndex(g[3])) + Decode(t).value)
  {
    assert (g + t)[4..] == t;
    assert (g + t)[0] == g[0] && (g + t)[1] == g[1] && (g + t)[2] == g[2] && (g + t)[3] == g[3];
  }

  lemma GroupDecodes(x: Byte, y: Byte, z: Byte)
    ensures var g := Group(x, y, z);
      UrlSafe(g[0]) && UrlSafe(g[1]) && UrlSafe(g[2]) && UrlSafe(g[3]) &&
      Ungroup(SymIndex(g[0]), SymIndex(g[1]), SymIndex(g[2]), SymIndex(g[3])) == [x, y, z]
  {
    SymUrlSafe(x / 4);
    SymUrlSafe((x % 4) * 16 + y / 16);
    SymUrlSafe((y % 16) * 4 + z / 64);
    SymUrlSafe(z % 64);
    GroupRoundTrip(x, y, z);
  }

  /** A group in front of decodable text decodes to its three bytes in front. */
  lemma DecodeGroupThen(x: Byte, y: Byte, z: Byte, t: string, rest: seq<Byte>)
    requires Decode(t) == Some(rest)
    ensures Decode(Group(x, y, z) + t) == Some([x, y, z] + rest)
  {
    GroupDecodes(x, y, z);
    DecodeStep(Group(x, y, z), t);
  }

  /** Decoding undoes the encoding of whole groups. */
  lemma {:induction false} DecodeEncode(b: seq<Byte>)
    requires |b| % 3 == 0
    ensures Decode(Encode(b)) == Some(b)
  {
    if |b| > 0 {
      DecodeEncode(b[3..]);
      DecodeEncodeStep(b);
    }
  }

  /** The inductive step of `DecodeEncode`: the first group decodes back in front of the rest. */
  lemma DecodeEncodeStep(b: seq<Byte>)
    requires |b| >= 3 && Decode(Encode(b[3..])) == Some(b[3..])
    ensures Decode(Encode(b)) == Some(b)
  {
    SplitThree(b);
    EncodeStep(b);
    DecodeGroupThen(b[0], b[1], b[2], Encode(b[3..]), b[3..]);
  }

  lemma SplitThree<T>(b: seq<T>)
    requires |b| >= 3
    ensures b == [b[0], b[1], b[2]] + b[3..]
  {
  }

  /** Three or more bytes encode as their first group followed by the rest. */
  lemma EncodeStep(b: seq<Byte>)
    requires |b| >= 3
    ensures Encode(b) == Group(b[0], b[1], b[2]) + Encode(b[3..])
  {
  }

  /** The code gives back the first nine bytes of the UUID it was made from. */
  lemma UniqueCodeDecodes(uuid: seq<Byte>)
    requires |uuid| == 16
    ensures Decode(UniqueCode(uuid)) == Some(uuid[..9])
  {
    UniqueCodeShape(uuid);
    DecodeEncode(uuid[..9]);
  }

  /** The currencies of `CRYPTO_SETTINGS` (settings/common.py:7-30). */
  const CryptoSettings: set<string> := {"BTC", "TRX", "TON", "ETH"}

  /** The wallet unit classes of units/. */
  datatype Unit = BTCUnit | ETHUnit | TRXUnit | TONUnit

  /** `get_unit(crypto)`: the unit class for a known currency, ValueError for any other. */
  function GetUnit(crypto: string): (r: Result<Unit>)
    ensures r.Raised? <==> crypto !in CryptoSettings
    ensures r.Raised? ==> r.error.ValueError?
  {
    if crypto !in CryptoSettings then Raised(ValueError("Unknown cryptocurrency: " + crypto))
    else if crypto == "BTC" then Ok(BTCUnit)
    else if crypto == "ETH" then Ok(ETHUnit)
    else if crypto == "TRX" then Ok(TRXUnit)
    else Ok(TONUnit)
  }

  /** The currency a unit class serves: its name without the `Unit` suffix (main.py:40-41). */
  function UnitCurrency(u: Unit): string
  {
    match u
    case BTCUnit => "BTC"
    case ETHUnit => "ETH"
    case TRXUnit => "TRX"
    case TONUnit => "TON"
  }

  /** `get_unit` picks the unit of exactly the currency it is asked for, and every unit is
      reachable from its own currency. */
  lemma GetUnitInverse(crypto: string, u: Unit)
    ensures GetUnit(crypto) == Ok(u) <==> UnitCurrency(u) == crypto
  {
  }
}
