/**
 Volume names as path components, and where a volume's files live (lib/kadalulib.py). A name is a
 string of Unicode scalar values, which is what encodes to UTF-8 at all.
 */
module Names {
  import opened Base

  type Byte = b: int | 0 <= b < 256

  // ---- UTF-8 ----

  function Utf8Char(c: char): (bs: seq<Byte>)
    ensures 1 <= |bs| <= 4
  {
    var n := c as int;
    if n < 0x80 then [n]
    else if n < 0x800 then [0xC0 + n / 64, 0x80 + n % 64]
    else if n < 0x10000 then [0xE0 + n / 4096, 0x80 + n / 64 % 64, 0x80 + n % 64]
    else [0xF0 + n / 262144, 0x80 + n / 4096 % 64, 0x80 + n / 64 % 64, 0x80 + n % 64]
  }

  function Utf8(s: string): seq<Byte> {
    if s == "" then [] else Utf8Char(s[0]) + Utf8(s[1..])
  }

  predicate Continues(b: Byte) {
    0x80 <= b < 0xC0
  }

  predicate IsScalar(n: int) {
    0 <= n < 0xD800 || 0xE000 <= n < 0x110000
  }

  /** One character from the front: its code point and its length, or nothing if the bytes are no
      shortest-form encoding of a scalar value. */
  function FirstScalar(bs: seq<Byte>): (r: Option<(int, nat)>)
    requires bs != []
    ensures r.Some? ==> IsScalar(r.value.0) && 1 <= r.value.1 <= |bs|
  {
    var b: int := bs[0];
    if b < 0x80 then Some((b, 1))
    else if 0xC2 <= b < 0xE0 && |bs| >= 2 && Continues(bs[1]) then
      var n: int := (b - 0xC0) * 64 + (bs[1] as int - 0x80);
      Some((n, 2))
    else if 0xE0 <= b < 0xF0 && |bs| >= 3 && Continues(bs[1]) && Continues(bs[2]) then
      var n: int := (b - 0xE0) * 4096 + (bs[1] as int - 0x80) * 64 + (bs[2] as int - 0x80);
      if 0x800 <= n && IsScalar(n) then Some((n, 3)) else None
    else if 0xF0 <= b < 0xF5 && |bs| >= 4 && Continues(bs[1]) && Continues(bs[2]) && Continues(bs[3]) then
      var n: int := (b - 0xF0) * 262144 + (bs[1] as int - 0x80) * 4096
                    + (bs[2] as int - 0x80) * 64 + (bs[3] as int - 0x80);
      if 0x10000 <= n && IsScalar(n) then Some((n, 4)) else None
    else None
  }

  function Utf8Decode(bs: seq<Byte>): Result<string> {
    if bs == [] then Success("") else
      var first := FirstScalar(bs);
      if first.None? then Failure else
        var rest := Utf8Decode(bs[first.value.1..]);
        if rest.Failure? then Failure else Success([first.value.0 as char] + rest.value)
  }

  lemma Shift6(n: int)
    requires 0 <= n
    ensures n / 64 / 64 == n / 4096 && n / 64 * 64 + n % 64 == n
  {
  }

  lemma Shift12(n: int)
    requires 0 <= n
    ensures n / 4096 / 64 == n / 262144
  {
  }

  lemma ThreeDigits(n: int)
    requires 0 <= n
    ensures n / 4096 * 4096 + n / 64 % 64 * 64 + n % 64 == n
  {
    Shift6(n);
    var high := n / 64;
    assert high / 64 * 64 + high % 64 == high;
  }

  lemma FourDigits(n: int)
    requires 0 <= n
    ensures n / 262144 * 262144 + n / 4096 % 64 * 4096 + n / 64 % 64 * 64 + n % 64 == n
  {
    ThreeDigits(n);
    Shift12(n);
    var high := n / 4096;
    assert high / 64 * 64 + high % 64 == high;
  }

  /** One character of one or two bytes. */
  lemma FirstShortScalarOf(c: char, rest: seq<Byte>)
    requires c as int < 0x800
    ensures FirstScalar(Utf8Char(c) + rest) == Some((c as int, |Utf8Char(c)|))
  {
    Shift6(c as int);
  }

  lemma FirstMiddleScalarOf(c: char, rest: seq<Byte>)
    requires 0x800 <= c as int < 0x10000
    ensures FirstScalar(Utf8Char(c) + rest) == Some((c as int, |Utf8Char(c)|))
  {
    var n := c as int;
    assert IsScalar(n);
    ThreeDigits(n);
  }

  lemma FirstLongScalarOf(c: char, rest: seq<Byte>)
    requires 0x10000 <= c as int
    ensures FirstScalar(Utf8Char(c) + rest) == Some((c as int, |Utf8Char(c)|))
  {
    var n := c as int;
    assert IsScalar(n);
    FourDigits(n);
  }

  lemma FirstScalarOf(c: char, rest: seq<Byte>)
    ensures FirstScalar(Utf8Char(c) + rest) == Some((c as int, |Utf8Char(c)|))
  {
    if c as int < 0x800 {
      FirstShortScalarOf(c, rest);
    } else if c as int < 0x10000 {
      FirstMiddleScalarOf(c, rest);
    } else {
      FirstLongScalarOf(c, rest);
    }
  }

  lemma {:induction false} Utf8RoundTrip(s: string)
    ensures Utf8Decode(Utf8(s)) == Success(s)
  {
    if s != "" {
      FirstScalarOf(s[0], Utf8(s[1..]));
      assert Utf8(s)[|Utf8Char(s[0])|..] == Utf8(s[1..]);
      Utf8RoundTrip(s[1..]);
      assert [s[0]] + s[1..] == s;
    }
  }

  lemma OneCharacter(c: char)
    ensures Utf8([c]) == Utf8Char(c)
  {
    assert [c][1..] == "";
  }

  /** The examples of section 7 of RFC 3629, one for each length. */
  lemma EncodesLikeTheStandard()
    ensures Utf8([0x41 as char]) == [0x41]
    ensures Utf8([0x0391 as char]) == [0xCE, 0x91]
    ensures Utf8([0x2262 as char]) == [0xE2, 0x89, 0xA2]
    ensures Utf8([0x233B4 as char]) == [0xF0, 0xA3, 0x8E, 0xB4]
  {
    OneCharacter(0x41 as char);
    OneCharacter(0x0391 as char);
    OneCharacter(0x2262 as char);
    OneCharacter(0x233B4 as char);
  }

  // ---- Unpadded base64url, section 5 of RFC 4648 ----

  type Sextet = n: int | 0 <= n < 64

  function Symbol(n: Sextet): char {
    if n < 26 then (65 + n) as char          // A to Z
    else if n < 52 then (97 + n - 26) as char // a to z
    else if n < 62 then (48 + n - 52) as char // 0 to 9
    else if n == 62 then '-' else '_'
  }

  /** The decoder also lets the standard alphabet's two symbols through. */
  function Value(c: char): Option<Sextet> {
    var n := c as int;
    if 65 <= n <= 90 then Some(n - 65)
    else if 97 <= n <= 122 then Some(n - 97 + 26)
    else if 48 <= n <= 57 then Some(n - 48 + 52)
    else if c == '-' || c == '+' then Some(62)
    else if c == '_' || c == '/' then Some(63)
    else None
  }

  function Sextets(bs: seq<Byte>): seq<Sextet> {
    if |bs| == 0 then [] else
      var a: int := bs[0];
      if |bs| == 1 then [a / 4, a % 4 * 16] else
        var b: int := bs[1];
        if |bs| == 2 then [a / 4, a % 4 * 16 + b / 16, b % 16 * 4] else
          var c: int := bs[2];
          [a / 4, a % 4 * 16 + b / 16, b % 16 * 4 + c / 64, c % 64] + Sextets(bs[3..])
  }

  /** Bits left over at the end are dropped; one symbol alone stands for no byte. */
  function Bytes(ss: seq<Sextet>): Result<seq<Byte>> {
    if |ss| == 0 then Success([])
    else if |ss| == 1 then Failure
    else
      var p: int, q: int := ss[0], ss[1];
      if |ss| == 2 then Success([p * 4 + q / 16]) else
        var r: int := ss[2];
        if |ss| == 3 then Success([p * 4 + q / 16, q % 16 * 16 + r / 4]) else
          var s: int := ss[3];
          var rest := Bytes(ss[4..]);
          if rest.Failure? then Failure
          else Success([p * 4 + q / 16, q % 16 * 16 + r / 4, r % 4 * 64 + s] + rest.value)
  }

  function Symbols(ss: seq<Sextet>): string {
    seq(|ss|, i requires 0 <= i < |ss| => Symbol(ss[i]))
  }

  function Values(s: string): Result<seq<Sextet>> {
    if s == "" then Success([]) else
      var first, rest := Value(s[0]), Values(s[1..]);
      if first.None? || rest.Failure? then Failure else Success([first.value] + rest.value)
  }

  /** Three bytes are four sextets. */
  lemma Regroup(a: int, b: int, c: int)
    requires 0 <= a < 256 && 0 <= b < 256 && 0 <= c < 256
    ensures a / 4 * 4 + (a % 4 * 16 + b / 16) / 16 == a
    ensures (a % 4 * 16 + b / 16) % 16 * 16 + (b % 16 * 4 + c / 64) / 4 == b
    ensures (b % 16 * 4 + c / 64) % 4 * 64 + c % 64 == c
  {
    assert (a % 4 * 16 + b / 16) / 16 == a % 4 && (a % 4 * 16 + b / 16) % 16 == b / 16;
    assert (b % 16 * 4 + c / 64) / 4 == b % 16 && (b % 16 * 4 + c / 64) % 4 == c / 64;
  }

  lemma {:induction false} BytesRoundTrip(bs: seq<Byte>)
    ensures Bytes(Sextets(bs)) == Success(bs)
  {
    if |bs| >= 1 { Regroup(bs[0], if |bs| >= 2 then bs[1] else 0, if |bs| >= 3 then bs[2] else 0); }
    if |bs| == 1 {
      assert bs == [bs[0]];
    } else if |bs| == 2 {
      assert bs == [bs[0], bs[1]];
    } else if |bs| >= 3 {
      BytesRoundTrip(bs[3..]);
      assert Sextets(bs)[4..] == Sextets(bs[3..]);
      assert bs == [bs[0], bs[1], bs[2]] + bs[3..];
    }
  }

  lemma SymbolRoundTrip(n: Sextet)
    ensures Value(Symbol(n)) == Some(n)
  {
  }

  lemma {:induction false} SymbolsRoundTrip(ss: seq<Sextet>)
    ensures Values(Symbols(ss)) == Success(ss)
  {
    if ss != [] {
      SymbolRoundTrip(ss[0]);
      assert Symbols(ss)[1..] == Symbols(ss[1..]);
      SymbolsRoundTrip(ss[1..]);
      assert [ss[0]] + ss[1..] == ss;
    } else {
      assert Symbols(ss) == "";
    }
  }

  function Base64(bs: seq<Byte>): string {
    Symbols(Sextets(bs))
  }

  function Base64Decode(s: string): Result<seq<Byte>> {
    var ss := Values(s);
    if ss.Failure? then Failure else Bytes(ss.value)
  }

  /** The alphabet of the standard's table 2. */
  lemma SymbolsAreTheAlphabet(n: Sextet)
    ensures [Symbol(0), Symbol(25), Symbol(26), Symbol(51)] == "AZaz"
    ensures [Symbol(52), Symbol(61), Symbol(62), Symbol(63)] == "09-_"
    ensures n !in {0, 26, 52, 62, 63} ==> Symbol(n) as int == Symbol(n - 1) as int + 1
  {
  }

  /** Its test vectors (section 10) of one, two and three bytes, without their padding. */
  lemma EncodesLikeTheVectors()
    ensures Base64([102]) == "Zg" && Base64([102, 111]) == "Zm8" && Base64([102, 111, 111]) == "Zm9v"
  {
    assert Sextets([102]) == [25, 32];
    assert Sextets([102, 111]) == [25, 38, 60];
    assert Sextets([102, 111, 111]) == [25, 38, 61, 47] + Sextets([]);
    SymbolsOf([25, 32], "Zg");
    SymbolsOf([25, 38, 60], "Zm8");
    SymbolsOf([25, 38, 61, 47], "Zm9v");
  }

  lemma SymbolsOf(ss: seq<Sextet>, s: string)
    requires |ss| == |s| && forall i :: 0 <= i < |ss| ==> Symbol(ss[i]) == s[i]
    ensures Symbols(ss) == s
  {
  }

  // ---- Components ----

  const PREFIX: string := ".kadalu~"

  const V2: string := ".kadalu-v2"

  predicate IsSafeComponent(s: string) {
    && s != "" && s != "." && s != ".." && |Utf8(s)| <= 128
    && forall i :: 0 <= i < |s| ==> s[i] != '/' && 32 <= s[i] as int && s[i] as int != 127
  }

  predicate Allowed(n: int) {
    !(n <= 0x08 || n == 0x0B || n == 0x0C || 0x0E <= n <= 0x1F || 0x7F <= n <= 0x9F)
  }

  predicate IsValidIdentifier(s: string) {
    s != "" && |Utf8(s)| <= 128 && forall i :: 0 <= i < |s| ==> Allowed(s[i] as int)
  }

  predicate IsRaw(name: string) {
    IsSafeComponent(name) && !(PREFIX <= name)
  }

  /** `volume_name_component` for a valid name. */
  function Component(name: string): string {
    if IsRaw(name) then name else PREFIX + Base64(Utf8(name))
  }

  /** `volume_name_from_component`: whatever the lenient decoder accepts must encode to itself again. */
  function FromComponent(component: string): Result<string> {
    if !(PREFIX <= component) then Success(component) else
      var encoded := component[|PREFIX|..];
      if encoded == "" then Failure else
        var bytes := Base64Decode(encoded);
        var name := if bytes.Failure? then Failure else Utf8Decode(bytes.value);
        if name.Success? && IsValidIdentifier(name.value) && Component(name.value) == component then name else Failure
  }

  lemma Base64IsNotEmpty(name: string)
    requires name != ""
    ensures Base64(Utf8(name)) != ""
  {
    assert |Utf8(name)| >= 1;
  }

  lemma {:induction false} Base64IsLonger(bs: seq<Byte>)
    ensures |bs| <= |Sextets(bs)|
    decreases |bs|
  {
    if 3 <= |bs| {
      Base64IsLonger(bs[3..]);
    }
  }

  lemma {:induction false} Utf8IsLonger(s: string)
    ensures |s| <= |Utf8(s)|
  {
    if s != "" {
      Utf8IsLonger(s[1..]);
    }
  }

  lemma EncodedIsLonger(name: string)
    ensures |name| < |PREFIX + Base64(Utf8(name))|
  {
    Utf8IsLonger(name);
    Base64IsLonger(Utf8(name));
  }

  lemma PlainNames(name: string)
    requires IsValidIdentifier(name)
    ensures IsSafeComponent(name) <==>
              && name != "." && name != ".."
              && forall i :: 0 <= i < |name| ==> name[i] !in {'/', '\t', '\n', '\r'}
  {
    assert forall i :: 0 <= i < |name| ==> Allowed(name[i] as int);
  }

  /** A CSI name is at most 128 bytes of UTF-8, of tabs, line breaks, printable ASCII, and whatever lies beyond
      the second block of control characters. */
  lemma ValidIdentifiers(name: string)
    ensures IsValidIdentifier(name) <==>
              && 0 < |name| && |Utf8(name)| <= 128
              && forall i :: 0 <= i < |name| ==>
                   name[i] in {'\t', '\n', '\r'} || ' ' <= name[i] <= '~' || 0xA0 <= name[i] as int
  {
    assert forall i :: 0 <= i < |name| ==>
        (Allowed(name[i] as int) <==>
         name[i] in {'\t', '\n', '\r'} || ' ' <= name[i] <= '~' || 0xA0 <= name[i] as int);
  }

  /** A name that is one plain path component stands for itself; only a name that is not, or that looks
      encoded, is encoded. */
  lemma OnlyUnsafeNamesAreEncoded(name: string)
    requires IsValidIdentifier(name)
    ensures Component(name) == name <==>
              && name != "." && name != ".." && !(".kadalu~" <= name)
              && forall i :: 0 <= i < |name| ==> name[i] !in {'/', '\t', '\n', '\r'}
    ensures Component(name) != name ==> Component(name) == ".kadalu~" + Base64(Utf8(name))
  {
    PlainNames(name);
    EncodedIsLonger(name);
  }

  /** Decoding an encoded name gives back every valid name. */
  lemma ComponentRoundTrip(name: string)
    requires IsValidIdentifier(name)
    ensures FromComponent(Component(name)) == Success(name)
  {
    if !IsRaw(name) {
      var encoded := Base64(Utf8(name));
      Base64IsNotEmpty(name);
      assert (PREFIX + encoded)[|PREFIX|..] == encoded;
      SymbolsRoundTrip(Sextets(Utf8(name)));
      BytesRoundTrip(Utf8(name));
      Utf8RoundTrip(name);
    }
  }

  /** The encoding is injective, raw and encoded names together. */
  lemma ComponentIsInjective(a: string, b: string)
    requires IsValidIdentifier(a) && IsValidIdentifier(b) && Component(a) == Component(b)
    ensures a == b
  {
    ComponentRoundTrip(a);
    ComponentRoundTrip(b);
  }

  /** A component of the encoded form decodes to exactly one name: the one it encodes. */
  lemma DecodedComponentsAreCanonical(component: string)
    requires PREFIX <= component && FromComponent(component).Success?
    ensures IsValidIdentifier(FromComponent(component).value)
    ensures Component(FromComponent(component).value) == component
  {
  }

  lemma ComponentIsOneComponent(name: string)
    requires IsValidIdentifier(name)
    ensures Component(name) != "" && '/' !in Component(name)
  {
    if !IsRaw(name) {
      assert forall n: Sextet :: Symbol(n) != '/';
    }
  }

  // ---- Paths ----

  /** Path components joined by slashes. */
  function Join(parts: seq<string>): string
    requires parts != []
  {
    if |parts| == 1 then parts[0] else parts[0] + "/" + Join(parts[1..])
  }

  predicate SlashFree(parts: seq<string>) {
    forall i :: 0 <= i < |parts| ==> '/' !in parts[i]
  }

  predicate FirstSlash(s: string, k: nat) {
    k <= |s| && (forall i :: 0 <= i < k ==> s[i] != '/') && (k < |s| ==> s[k] == '/')
  }

  lemma OneFirstSlash(s: string, j: nat, k: nat)
    requires FirstSlash(s, j) && FirstSlash(s, k)
    ensures j == k
  {
  }

  lemma JoinSlash(p: seq<string>)
    requires p != [] && SlashFree(p)
    ensures var s := Join(p);
            FirstSlash(s, |p[0]|) && p[0] == s[..|p[0]|] && (|p| == 1 <==> |s| == |p[0]|)
  {
    assert Join(p)[..|p[0]|] == p[0];
  }

  lemma JoinHead(p: seq<string>, q: seq<string>)
    requires p != [] && q != [] && SlashFree(p) && SlashFree(q) && Join(p) == Join(q)
    ensures p[0] == q[0] && (|p| == 1 <==> |q| == 1)
  {
    JoinSlash(p);
    JoinSlash(q);
    OneFirstSlash(Join(p), |p[0]|, |q[0]|);
  }

  lemma {:induction false} JoinIsInjective(p: seq<string>, q: seq<string>)
    requires p != [] && q != [] && SlashFree(p) && SlashFree(q) && Join(p) == Join(q)
    ensures p == q
    decreases |p|
  {
    JoinHead(p, q);
    if |p| > 1 {
      assert Join(p)[|p[0]| + 1..] == Join(p[1..]);
      assert Join(q)[|q[0]| + 1..] == Join(q[1..]);
      JoinIsInjective(p[1..], q[1..]);
      assert p == [p[0]] + p[1..] && q == [q[0]] + q[1..];
    }
  }

  /** What a volume type and a name's hash contribute to a path. Of the hash nothing more is assumed than
      that its first four characters are neither "/" nor ".", as hexadecimal ones never are, so that
      normalizing a path changes nothing. */
  predicate IsBucket(voltype: string, hash: string) {
    '/' !in voltype && |hash| >= 4 && '/' !in hash[..4] && '.' !in hash[..4]
  }

  function CanonicalParts(voltype: string, hash: string, name: string): seq<string>
    requires IsBucket(voltype, hash)
  {
    if PREFIX <= Component(name) then [voltype, V2, hash[0..2], hash[2..4], Component(name)]
    else [voltype, hash[0..2], hash[2..4], Component(name)]
  }

  /** `get_volume_path` */
  function VolumePath(voltype: string, hash: string, name: string): string
    requires IsBucket(voltype, hash)
  {
    Join(CanonicalParts(voltype, hash, name))
  }

  /** Two directories of two hash characters each; an encoded name is below one more. */
  lemma PathIsBucketed(voltype: string, hash: string, name: string)
    requires IsBucket(voltype, hash) && IsValidIdentifier(name)
    ensures var bucket := hash[..2] + "/" + hash[2..4] + "/";
            VolumePath(voltype, hash, name)
            == voltype + (if Component(name) == name then "/" else "/.kadalu-v2/") + (bucket + Component(name))
  {
    OnlyUnsafeNamesAreEncoded(name);
    JoinThree(hash[0..2], hash[2..4], Component(name));
    InBucket(voltype, [hash[0..2], hash[2..4], Component(name)]);
    InDeepBucket(voltype, [hash[0..2], hash[2..4], Component(name)]);
    assert (PREFIX <= Component(name)) == (Component(name) != name);
  }

  /** Only a name that is one plain component, even one that looks encoded, had a path of its own before, and
      it still counts. */
  lemma LegacyPathIff(voltype: string, hash: string, name: string)
    requires IsBucket(voltype, hash) && IsValidIdentifier(name)
    ensures var path := voltype + "/" + (hash[..2] + "/" + hash[2..4] + "/" + name);
            && Paths(voltype, hash, name)
               == {VolumePath(voltype, hash, name)}
                  + (if && name != "." && name != ".."
                        && forall i :: 0 <= i < |name| ==> name[i] !in {'/', '\t', '\n', '\r'}
                     then {path} else {})
  {
    PlainNames(name);
    JoinThree(hash[0..2], hash[2..4], name);
    InBucket(voltype, [hash[0..2], hash[2..4], name]);
  }

  lemma InBucket(voltype: string, tail: seq<string>)
    requires |tail| == 3
    ensures Join([voltype, tail[0], tail[1], tail[2]]) == voltype + "/" + Join(tail)
  {
    assert [voltype, tail[0], tail[1], tail[2]] == [voltype] + tail;
    JoinFirst(voltype, tail);
  }

  lemma InDeepBucket(voltype: string, tail: seq<string>)
    requires |tail| == 3
    ensures Join([voltype, V2, tail[0], tail[1], tail[2]]) == voltype + "/.kadalu-v2/" + Join(tail)
  {
    assert [voltype, V2, tail[0], tail[1], tail[2]] == [voltype] + ([V2] + tail);
    JoinFirst(V2, tail);
    JoinFirst(voltype, [V2] + tail);
    DeepBucket();
    Rejoin(voltype, V2, Join(tail));
  }

  lemma DeepBucket()
    ensures "/" + (V2 + "/") == "/.kadalu-v2/"
  {
  }

  lemma Rejoin(a: string, b: string, c: string)
    ensures a + "/" + (b + "/" + c) == a + ("/" + (b + "/")) + c
  {
  }

  lemma JoinFirst(first: string, rest: seq<string>)
    requires rest != []
    ensures Join([first] + rest) == first + "/" + Join(rest)
  {
    assert ([first] + rest)[1..] == rest;
  }

  lemma JoinThree(a: string, b: string, c: string)
    ensures Join([a, b, c]) == a + "/" + b + "/" + c
  {
    JoinFirst(b, [c]);
    JoinFirst(a, [b] + [c]);
    assert [a, b, c] == [a] + ([b] + [c]);
    assert a + "/" + (b + "/" + c) == a + "/" + b + "/" + c;
  }

  /** `get_legacy_volume_path`: only a name that is one safe component had one. */
  function LegacyPath(voltype: string, hash: string, name: string): Option<string>
    requires IsBucket(voltype, hash)
  {
    if IsSafeComponent(name) then Some(Join([voltype, hash[0..2], hash[2..4], name])) else None
  }

  /** `_canonical_volume_paths` */
  function Paths(voltype: string, hash: string, name: string): set<string>
    requires IsBucket(voltype, hash)
  {
    var canonical := {VolumePath(voltype, hash, name)};
    match LegacyPath(voltype, hash, name)
    case None => canonical
    case Some(p) => canonical + {p}
  }

  /** The parts of every path of a name. */
  predicate PartsOf(parts: seq<string>, voltype: string, hash: string, name: string) {
    && IsBucket(voltype, hash)
    && (parts == CanonicalParts(voltype, hash, name)
        || (IsSafeComponent(name) && parts == [voltype, hash[0..2], hash[2..4], name]))
  }

  lemma PathHasParts(voltype: string, hash: string, name: string, path: string) returns (parts: seq<string>)
    requires IsBucket(voltype, hash) && IsValidIdentifier(name) && path in Paths(voltype, hash, name)
    ensures PartsOf(parts, voltype, hash, name) && parts != [] && SlashFree(parts) && path == Join(parts)
  {
    ComponentIsOneComponent(name);
    assert forall c :: c in hash[0..2] || c in hash[2..4] ==> c in hash[..4];
    if path == VolumePath(voltype, hash, name) {
      parts := CanonicalParts(voltype, hash, name);
    } else {
      parts := [voltype, hash[0..2], hash[2..4], name];
    }
  }

  /** The paths of two names of one type never meet, whatever their hashes: an encoded name lives one
      directory deeper than any raw or legacy one. */
  lemma PathsAreDisjoint(voltype: string, a: string, hashA: string, b: string, hashB: string)
    requires IsBucket(voltype, hashA) && IsBucket(voltype, hashB)
    requires IsValidIdentifier(a) && IsValidIdentifier(b) && a != b
    ensures Paths(voltype, hashA, a) !! Paths(voltype, hashB, b)
  {
    forall path | path in Paths(voltype, hashA, a) ensures path !in Paths(voltype, hashB, b) {
      if path in Paths(voltype, hashB, b) {
        var p := PathHasParts(voltype, hashA, a, path);
        var q := PathHasParts(voltype, hashB, b, path);
        JoinIsInjective(p, q);
        SamePartsSameName(p, voltype, hashA, a, hashB, b);
      }
    }
  }

  lemma SamePartsSameName(parts: seq<string>, voltype: string, hashA: string, a: string, hashB: string, b: string)
    requires IsValidIdentifier(a) && IsValidIdentifier(b)
    requires PartsOf(parts, voltype, hashA, a) && PartsOf(parts, voltype, hashB, b)
    ensures a == b
  {
    var last := parts[|parts| - 1];
    if |parts| == 5 {
      assert last == Component(a) == Component(b);
      ComponentIsInjective(a, b);
    } else {
      LastIsName(parts, voltype, hashA, a);
      LastIsName(parts, voltype, hashB, b);
    }
  }

  /** A path of four parts ends in the name itself. */
  lemma LastIsName(parts: seq<string>, voltype: string, hash: string, name: string)
    requires PartsOf(parts, voltype, hash, name) && |parts| == 4
    ensures parts[3] == name
  {
    if !IsRaw(name) {
      assert PREFIX <= Component(name);
    }
  }
}
