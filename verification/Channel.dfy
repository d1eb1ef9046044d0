/** internal/notify/channel.go: one Redis Pub/Sub channel per citizen. */
module Channel {
  import opened Wrappers
  import opened Uuids

  const CITIZEN_CHANNEL_PREFIX: string := "notif:citizen:"
  const HEX: string := "0123456789abcdef"

  function Pow16(n: nat): (r: nat)
    ensures r >= 1
  {
    if n == 0 then 1 else 16 * Pow16(n - 1)
  }

  /** The last k hexadecimal digits of n, lower case. */
  function HexDigits(n: nat, k: nat): (s: string)
    ensures |s| == k
  {
    if k == 0 then "" else HexDigits(n / 16, k - 1) + [HEX[n % 16]]
  }

  function Nibble(c: char): Option<nat> {
    if '0' <= c <= '9' then Some(c as nat - '0' as nat)
    else if 'a' <= c <= 'f' then Some(c as nat - 'a' as nat + 10)
    else if 'A' <= c <= 'F' then Some(c as nat - 'A' as nat + 10)
    else None
  }

  predicate AllHex(s: string) {
    forall i | 0 <= i < |s| :: Nibble(s[i]).Some?
  }

  function HexValue(s: string): nat
    requires AllHex(s)
  {
    if s == "" then 0 else 16 * HexValue(s[..|s| - 1]) + Nibble(s[|s| - 1]).value
  }

  function LowerChar(c: char): char {
    if 'A' <= c <= 'Z' then (c as int - 'A' as int + 'a' as int) as char else c
  }

  function Lower(s: string): string {
    seq(|s|, i requires 0 <= i < |s| => LowerChar(s[i]))
  }

  /** Section 4 of RFC 9562: 8-4-4-4-12 lower-case hexadecimal digits. */
  function UuidText(id: Uuid): (s: string)
    ensures |s| == 36
  {
    Dashed(HexDigits(id, 32))
  }

  function Dashed(h: string): (s: string)
    requires |h| == 32
    ensures |s| == 36
  {
    h[..8] + "-" + h[8..12] + "-" + h[12..16] + "-" + h[16..20] + "-" + h[20..]
  }

  predicate HasDashes(s: string)
    requires |s| == 36
  {
    s[8] == '-' && s[13] == '-' && s[18] == '-' && s[23] == '-'
  }

  function Undashed(s: string): (h: string)
    requires |s| == 36
    ensures |h| == 32
  {
    s[..8] + s[9..13] + s[14..18] + s[19..23] + s[24..]
  }

  /** Reads the 36-character form, in either letter case. */
  function ParseUuid(s: string): Option<Uuid> {
    if |s| != 36 || !HasDashes(s) || !AllHex(Undashed(s)) then None
    else
      HexValueBound(Undashed(s));
      Pow16At32();
      Some(HexValue(Undashed(s)))
  }

  function CitizenChannel(citizen: Uuid): string {
    CITIZEN_CHANNEL_PREFIX + UuidText(citizen)
  }

  function ParseCitizenChannel(channel: string): Option<Uuid> {
    if CITIZEN_CHANNEL_PREFIX <= channel then ParseUuid(channel[|CITIZEN_CHANNEL_PREFIX|..]) else None
  }

  lemma Pow16At32()
    ensures Pow16(32) == UUID_LIMIT
  {
    assert Pow16(8) == 0x1_0000_0000;
    Pow16Add(8, 8);
    Pow16Add(16, 16);
  }

  lemma {:induction false} Pow16Add(m: nat, n: nat)
    ensures Pow16(m + n) == Pow16(m) * Pow16(n)
  {
    if m > 0 {
      Pow16Add(m - 1, n);
      assert 16 * (Pow16(m - 1) * Pow16(n)) == (16 * Pow16(m - 1)) * Pow16(n);
    }
  }

  lemma {:induction false} HexValueBound(s: string)
    requires AllHex(s)
    ensures HexValue(s) < Pow16(|s|)
  {
    if s != "" {
      HexValueBound(s[..|s| - 1]);
    }
  }

  lemma {:induction false} HexRoundTrip(n: nat, k: nat)
    requires n < Pow16(k)
    ensures AllHex(HexDigits(n, k)) && HexValue(HexDigits(n, k)) == n
  {
    if k > 0 {
      HexRoundTrip(n / 16, k - 1);
      var s := HexDigits(n, k);
      assert s[..|s| - 1] == HexDigits(n / 16, k - 1);
      NibbleOfHex(n % 16);
    }
  }

  lemma NibbleOfHex(d: nat)
    requires d < 16
    ensures Nibble(HEX[d]) == Some(d)
  {
  }

  lemma HexOfNibble(c: char)
    requires Nibble(c).Some?
    ensures Nibble(c).value < 16 && HEX[Nibble(c).value] == LowerChar(c)
  {
  }

  lemma {:induction false} DigitsOfValue(s: string)
    requires AllHex(s)
    ensures HexDigits(HexValue(s), |s|) == Lower(s)
  {
    if s != "" {
      var init := s[..|s| - 1];
      DigitsOfValue(init);
      HexOfNibble(s[|s| - 1]);
      assert HexValue(s) / 16 == HexValue(init) && HexValue(s) % 16 == Nibble(s[|s| - 1]).value;
      assert Lower(s) == Lower(init) + [LowerChar(s[|s| - 1])];
    }
  }

  lemma UndashedOfDashed(h: string)
    requires |h| == 32
    ensures HasDashes(Dashed(h)) && Undashed(Dashed(h)) == h
  {
    var s := Dashed(h);
    assert s[..8] == h[..8];
    assert s[9..13] == h[8..12];
    assert s[14..18] == h[12..16];
    assert s[19..23] == h[16..20];
    assert s[24..] == h[20..];
    assert h == h[..8] + h[8..12] + h[12..16] + h[16..20] + h[20..];
  }

  /** Reading back a citizen's channel gives that citizen, for every UUID. */
  lemma ChannelRoundTrip(citizen: Uuid)
    ensures ParseCitizenChannel(CitizenChannel(citizen)) == Some(citizen)
  {
    Pow16At32();
    HexRoundTrip(citizen, 32);
    UndashedOfDashed(HexDigits(citizen, 32));
    assert CitizenChannel(citizen)[|CITIZEN_CHANNEL_PREFIX|..] == UuidText(citizen);
  }

  /** A hexadecimal text digit by digit, the most significant first. */
  lemma {:induction false} HexDigitAt(n: nat, k: nat, j: nat)
    requires j < k
    ensures HexDigits(n, k)[j] == "0123456789abcdef"[(n / Pow16(k - 1 - j)) % 16]
    decreases k
  {
    if j < k - 1 {
      HexDigitAt(n / 16, k - 1, j);
      DivTwice(n, Pow16(k - 2 - j));
    }
  }

  lemma AtLeast(d: int, e: int)
    requires d > 0 && e >= 1
    ensures d * e >= d
  {
    assert d * (e - 1) >= 0;
    assert d * (e - 1) == d * e - d;
  }

  /** A quotient is determined by the remainder being small. */
  lemma QuotientIs(d: int, q: int, r: int, p: int, s: int)
    requires d > 0 && d * q + r == d * p + s && 0 <= r < d && 0 <= s < d
    ensures q == p
  {
    assert d * (q - p) == d * q - d * p;
    assert d * (p - q) == d * p - d * q;
    if q > p { AtLeast(d, q - p); }
    if p > q { AtLeast(d, p - q); }
  }

  lemma Regroup(b: int, q: int, r: int)
    ensures 16 * (b * q + r) == (16 * b) * q + 16 * r
  {
  }

  lemma DivTwice(n: nat, b: nat)
    requires b > 0
    ensures n / 16 / b == n / (16 * b)
  {
    var m := n / 16;
    var q, r := m / b, m % b;
    assert m == b * q + r;
    Regroup(b, q, r);
    var d := 16 * b;
    assert n == d * (n / d) + n % d;
    QuotientIs(d, q, 16 * r + n % 16, n / d, n % d);
  }

  /** A citizen's channel character by character: "notif:citizen:", then the 32 digits of the UUID, lower case and the
      most significant first, with a dash after the 8th, 12th, 16th and 20th. */
  lemma ChannelSpelled(citizen: Uuid, j: nat)
    requires j < 32
    ensures |CitizenChannel(citizen)| == 50 && CitizenChannel(citizen)[..14] == "notif:citizen:"
    ensures var text := CitizenChannel(citizen)[14..];
            && text[8] == text[13] == text[18] == text[23] == '-'
            && var at := j + if j < 8 then 0 else if j < 12 then 1 else if j < 16 then 2 else if j < 20 then 3 else 4;
               text[at] == "0123456789abcdef"[(citizen / Pow16(31 - j)) % 16]
  {
    HexDigitAt(citizen, 32, j);
    assert CitizenChannel(citizen)[14..] == UuidText(citizen);
  }

  /** No two citizens share a channel. */
  lemma ChannelInjective(a: Uuid, b: Uuid)
    requires CitizenChannel(a) == CitizenChannel(b)
    ensures a == b
  {
    ChannelRoundTrip(a);
    ChannelRoundTrip(b);
  }

  lemma LowerSlice(s: string, h: string, i: nat, j: nat, n: nat)
    requires i + n <= |s| && j + n <= |h| && s[i..i + n] == h[j..j + n]
    ensures Lower(s)[i..i + n] == Lower(h)[j..j + n]
  {
    assert Lower(s)[i..i + n] == Lower(s[i..i + n]);
    assert Lower(h)[j..j + n] == Lower(h[j..j + n]);
  }

  lemma LowerDashed(s: string)
    requires |s| == 36 && HasDashes(s)
    ensures Lower(s) == Dashed(Lower(Undashed(s)))
  {
    var h := Undashed(s);
    var l, u := Lower(s), Lower(h);
    assert h[..8] == s[..8] && h[8..12] == s[9..13] && h[12..16] == s[14..18];
    assert h[16..20] == s[19..23] && h[20..] == s[24..];
    LowerSlice(s, h, 0, 0, 8);
    LowerSlice(s, h, 9, 8, 4);
    LowerSlice(s, h, 14, 12, 4);
    LowerSlice(s, h, 19, 16, 4);
    LowerSlice(s, h, 24, 20, 12);
    assert l == l[..8] + [l[8]] + l[9..13] + [l[13]] + l[14..18] + [l[18]] + l[19..23] + [l[23]] + l[24..];
  }

  /** A channel name is accepted for a citizen exactly when it is that citizen's channel up to the
      letter case of the hexadecimal digits. */
  lemma ParseAcceptsExactly(channel: string, citizen: Uuid)
    ensures ParseCitizenChannel(channel) == Some(citizen)
            <==> CITIZEN_CHANNEL_PREFIX <= channel
                 && Lower(channel[|CITIZEN_CHANNEL_PREFIX|..]) == UuidText(citizen)
  {
    if CITIZEN_CHANNEL_PREFIX <= channel {
      var s := channel[|CITIZEN_CHANNEL_PREFIX|..];
      if ParseUuid(s) == Some(citizen) {
        DigitsOfValue(Undashed(s));
        LowerDashed(s);
      }
      if Lower(s) == UuidText(citizen) {
        LowerFormParses(s, citizen);
      }
    }
  }

  lemma LowerFormParses(s: string, citizen: Uuid)
    requires Lower(s) == UuidText(citizen)
    ensures ParseUuid(s) == Some(citizen)
  {
    Pow16At32();
    HexRoundTrip(citizen, 32);
    var h := HexDigits(citizen, 32);
    UndashedOfDashed(h);
    assert |s| == |Lower(s)| == 36;
    assert Lower(s)[8] == '-' && Lower(s)[13] == '-' && Lower(s)[18] == '-' && Lower(s)[23] == '-';
    LowerDashed(s);
    UndashedOfDashed(Lower(Undashed(s)));
    assert Lower(Undashed(s)) == h;
    LowerKeepsHex(Undashed(s));
  }

  lemma {:induction false} LowerKeepsHex(s: string)
    requires AllHex(Lower(s))
    ensures AllHex(s) && HexValue(s) == HexValue(Lower(s))
  {
    forall i | 0 <= i < |s| ensures Nibble(s[i]) == Nibble(Lower(s)[i]) {
    }
    if s != "" {
      assert Lower(s)[..|s| - 1] == Lower(s[..|s| - 1]);
      LowerKeepsHex(s[..|s| - 1]);
    }
  }
}
