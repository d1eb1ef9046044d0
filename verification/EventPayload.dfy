/** internal/webhook/payload.go, idempotency.go and ws_payload.go, with internal/identity/cpf.go. */
module EventPayloads {
  import opened Wrappers
  import opened Uuids
  import opened Messages

  datatype EventPayload = EventPayload(
    chamadoId: string,
    tipo: string,
    cpf: string,
    statusAnterior: string,
    statusNovo: string,
    titulo: string,
    descricao: string,
    timestamp: string)

  // ---- strings.TrimSpace ----

  predicate IsSpace(c: char) {
    c in {'\t', '\n', '\U{b}', '\U{c}', '\r', ' ', '\U{85}', '\U{a0}', '\U{1680}',
          '\U{2028}', '\U{2029}', '\U{202f}', '\U{205f}', '\U{3000}'}
    || '\U{2000}' <= c <= '\U{200a}'
  }

  function TrimLeft(s: string): string {
    if s != "" && IsSpace(s[0]) then TrimLeft(s[1..]) else s
  }

  function TrimRight(s: string): string {
    if s != "" && IsSpace(s[|s| - 1]) then TrimRight(s[..|s| - 1]) else s
  }

  function TrimSpace(s: string): string {
    TrimRight(TrimLeft(s))
  }

  predicate Blank(s: string) {
    TrimSpace(s) == ""
  }

  predicate AllSpace(s: string) {
    forall i | 0 <= i < |s| :: IsSpace(s[i])
  }

  /** A field counts as missing exactly when it holds nothing but white space. */
  lemma BlankIff(s: string)
    ensures Blank(s) <==> AllSpace(s)
  {
    TrimLeftIff(s);
    TrimRightIff(TrimLeft(s));
  }

  /** The white space of Unicode, by code point. */
  lemma SpaceIff(c: char)
    ensures IsSpace(c) <==>
              var n := c as int;
              || 9 <= n <= 13 || n == 32 || n == 0x85 || n == 0xA0 || n == 0x1680 || 0x2000 <= n <= 0x200A
              || n == 0x2028 || n == 0x2029 || n == 0x202F || n == 0x205F || n == 0x3000
  {
    assert '\t' as int == 9 && '\n' as int == 10 && '\r' as int == 13 && ' ' as int == 32;
  }

  /** What is left of s without the white space around it is t. */
  ghost predicate Trims(s: string, t: string) {
    && (exists a, b {:trigger a + t + b} :: s == a + t + b && AllSpace(a) && AllSpace(b))
    && (t != "" ==> !IsSpace(t[0]) && !IsSpace(t[|t| - 1]))
  }

  lemma {:induction false} TrimLeftCuts(s: string) returns (a: string)
    ensures s == a + TrimLeft(s) && AllSpace(a)
    ensures TrimLeft(s) != "" ==> !IsSpace(TrimLeft(s)[0])
  {
    a := "";
    if s != "" && IsSpace(s[0]) {
      var rest := TrimLeftCuts(s[1..]);
      a := [s[0]] + rest;
      assert s == [s[0]] + s[1..];
    }
  }

  lemma {:induction false} TrimRightCuts(s: string) returns (b: string)
    ensures s == TrimRight(s) + b && AllSpace(b)
    ensures TrimRight(s) != "" ==> !IsSpace(TrimRight(s)[|TrimRight(s)| - 1]) && TrimRight(s)[0] == s[0]
  {
    b := "";
    if s != "" && IsSpace(s[|s| - 1]) {
      var rest := TrimRightCuts(s[..|s| - 1]);
      b := rest + [s[|s| - 1]];
      assert s == s[..|s| - 1] + [s[|s| - 1]];
    }
  }

  /** TrimSpace gives the middle of a text, and no other text is its middle. */
  lemma TrimSpaceIff(s: string, t: string)
    ensures t == TrimSpace(s) <==> Trims(s, t)
  {
    var a := TrimLeftCuts(s);
    var b := TrimRightCuts(TrimLeft(s));
    assert s == a + TrimSpace(s) + b;
    if Trims(s, t) {
      var x, y :| s == x + t + y && AllSpace(x) && AllSpace(y);
      OneMiddle(a, TrimSpace(s), b, x, t, y);
    }
  }

  lemma OneMiddle(a: string, t: string, b: string, x: string, u: string, y: string)
    requires a + t + b == x + u + y && AllSpace(a) && AllSpace(b) && AllSpace(x) && AllSpace(y)
    requires t != "" ==> !IsSpace(t[0]) && !IsSpace(t[|t| - 1])
    requires u != "" ==> !IsSpace(u[0]) && !IsSpace(u[|u| - 1])
    ensures t == u
  {
    var s := a + t + b;
    assert forall i | 0 <= i < |a| :: s[i] == a[i];
    assert forall i | |a| + |t| <= i < |s| :: s[i] == b[i - |a| - |t|];
    assert forall i | 0 <= i < |x| :: s[i] == x[i];
    assert forall i | |x| + |u| <= i < |s| :: s[i] == y[i - |x| - |u|];
    if t != "" { assert s[|a|] == t[0] && s[|a| + |t| - 1] == t[|t| - 1]; }
    if u != "" { assert s[|x|] == u[0] && s[|x| + |u| - 1] == u[|u| - 1]; }
    if t != "" && u != "" {
      assert |a| == |x| && |t| == |u|;
      assert s[|a|..|a| + |t|] == t && s[|x|..|x| + |u|] == u;
    }
  }

  lemma {:induction false} TrimLeftIff(s: string)
    ensures TrimLeft(s) == "" <==> AllSpace(s)
    ensures TrimLeft(s) != "" ==> !IsSpace(TrimLeft(s)[0])
  {
    if s != "" && IsSpace(s[0]) {
      TrimLeftIff(s[1..]);
      if AllSpace(s[1..]) {
        forall i | 0 <= i < |s| ensures IsSpace(s[i]) {
          if i > 0 { assert s[i] == s[1..][i - 1]; }
        }
      } else {
        var i :| 0 <= i < |s[1..]| && !IsSpace(s[1..][i]);
        assert s[i + 1] == s[1..][i];
      }
    }
  }

  lemma {:induction false} TrimRightIff(s: string)
    ensures s != "" && !IsSpace(s[0]) ==> TrimRight(s) != ""
    ensures s == "" ==> TrimRight(s) == ""
  {
    if s != "" && IsSpace(s[|s| - 1]) {
      TrimRightIff(s[..|s| - 1]);
    }
  }

  // ---- Validate ----

  /** time.Parse over the two RFC 3339 layouts: the instant a timestamp names, if it is one. */
  type TimeReader = string -> Option<int>

  /** RFC 3339 text is made of digits, signs and the letters T and Z; in particular it has no `|`. */
  ghost predicate ReadsRfc3339(read: TimeReader) {
    forall s, i | read(s).Some? && 0 <= i < |s| :: s[i] in "0123456789TZtz+-:.,"
  }

  predicate ElevenDigits(s: string) {
    |s| == 11 && forall i | 0 <= i < |s| :: '0' <= s[i] <= '9'
  }

  function NormalizeCpf11(s: string): Option<string> {
    var t := TrimSpace(s);
    if ElevenDigits(t) then Some(t) else None
  }

  /** The payload with its CPF normalised, or None for an invalid payload. */
  function Validate(read: TimeReader, p: EventPayload): Option<EventPayload> {
    if Blank(p.chamadoId) || Blank(p.tipo) || Blank(p.statusNovo) || Blank(p.titulo) || Blank(p.descricao)
       || Blank(p.timestamp) then None
    else if NormalizeCpf11(p.cpf).None? then None
    else if read(p.timestamp).None? then None
    else Some(p.(cpf := NormalizeCpf11(p.cpf).value))
  }

  /** What Validate accepts: six texts that are not all white space, eleven digits with at most white space around
      them, and a readable timestamp. The CPF comes out as the digits, everything else as it went in. */
  lemma ValidateIff(read: TimeReader, p: EventPayload)
    ensures Validate(read, p).Some? <==>
              && !AllSpace(p.chamadoId) && !AllSpace(p.tipo) && !AllSpace(p.statusNovo)
              && !AllSpace(p.titulo) && !AllSpace(p.descricao) && !AllSpace(p.timestamp)
              && (exists t :: Trims(p.cpf, t) && |t| == 11 && forall i | 0 <= i < 11 :: '0' <= t[i] <= '9')
              && read(p.timestamp).Some?
    ensures Validate(read, p).Some? ==>
              var v := Validate(read, p).value;
              && v == p.(cpf := v.cpf) && Trims(p.cpf, v.cpf)
              && |v.cpf| == 11 && forall i | 0 <= i < 11 :: '0' <= v.cpf[i] <= '9'
  {
    BlankIff(p.chamadoId);
    BlankIff(p.tipo);
    BlankIff(p.statusNovo);
    BlankIff(p.titulo);
    BlankIff(p.descricao);
    BlankIff(p.timestamp);
    forall t ensures t == TrimSpace(p.cpf) <==> Trims(p.cpf, t) { TrimSpaceIff(p.cpf, t); }
    assert Trims(p.cpf, TrimSpace(p.cpf));
  }

  // ---- IdempotencyKey ----

  /** The text that is hashed. */
  function Canonical(p: EventPayload): string {
    "v1|" + p.chamadoId + "|" + p.statusNovo + "|" + p.timestamp + "|" + p.tipo
  }

  predicate NoBar(s: string) {
    '|' !in s
  }

  /** The first bar splits a text in one way only. */
  lemma FirstBar(a: string, x: string, b: string, y: string)
    requires NoBar(a) && NoBar(b) && a + "|" + x == b + "|" + y
    ensures a == b && x == y
  {
    var s, t := a + "|" + x, b + "|" + y;
    assert forall i | 0 <= i < |a| :: s[i] == a[i] && s[i] != '|';
    assert forall i | 0 <= i < |b| :: t[i] == b[i] && t[i] != '|';
    assert s[|a|] == '|' && t[|b|] == '|';
    assert |a| == |b|;
    assert s[..|a|] == a && t[..|b|] == b;
    assert s[|a| + 1..] == x && t[|b| + 1..] == y;
  }

  lemma ValidHasNoBarInTimestamp(read: TimeReader, p: EventPayload)
    requires ReadsRfc3339(read) && Validate(read, p).Some?
    ensures NoBar(p.timestamp)
  {
    forall i | 0 <= i < |p.timestamp| ensures p.timestamp[i] != '|' {
      assert p.timestamp[i] in "0123456789TZtz+-:.,";
    }
  }

  /** The canonical text tells the four fields apart when the first three hold no bar; tipo may, because it is last. */
  lemma FieldsInjective(p: EventPayload, q: EventPayload)
    requires NoBar(p.chamadoId) && NoBar(p.statusNovo) && NoBar(p.timestamp)
    requires NoBar(q.chamadoId) && NoBar(q.statusNovo) && NoBar(q.timestamp)
    ensures Canonical(p) == Canonical(q)
            <==> p.chamadoId == q.chamadoId && p.statusNovo == q.statusNovo
                 && p.timestamp == q.timestamp && p.tipo == q.tipo
  {
    if Canonical(p) == Canonical(q) {
      CanonicalNested(p);
      CanonicalNested(q);
      var p3, q3 := p.timestamp + "|" + p.tipo, q.timestamp + "|" + q.tipo;
      FirstBar(p.chamadoId, p.statusNovo + "|" + p3, q.chamadoId, q.statusNovo + "|" + q3);
      FirstBar(p.statusNovo, p3, q.statusNovo, q3);
      FirstBar(p.timestamp, p.tipo, q.timestamp, q.tipo);
    }
  }

  /** Valid payloads have no bar in the timestamp, so without a bar in chamado_id and status_novo they have the same
      canonical text only if they agree on all four fields it is made of. */
  lemma CanonicalInjective(read: TimeReader, p: EventPayload, q: EventPayload)
    requires ReadsRfc3339(read) && Validate(read, p).Some? && Validate(read, q).Some?
    requires NoBar(p.chamadoId) && NoBar(p.statusNovo) && NoBar(q.chamadoId) && NoBar(q.statusNovo)
    ensures Canonical(p) == Canonical(q)
            <==> p.chamadoId == q.chamadoId && p.statusNovo == q.statusNovo
                 && p.timestamp == q.timestamp && p.tipo == q.tipo
  {
    ValidHasNoBarInTimestamp(read, p);
    ValidHasNoBarInTimestamp(read, q);
    FieldsInjective(p, q);
  }

  lemma CanonicalNested(p: EventPayload)
    ensures Canonical(p)[3..] == p.chamadoId + "|" + (p.statusNovo + "|" + (p.timestamp + "|" + p.tipo))
  {
  }

  /** The hashed text after its "v1|". */
  function Fields(p: EventPayload): string {
    p.chamadoId + "|" + p.statusNovo + "|" + p.timestamp + "|" + p.tipo
  }

  /** Three bars cut a text into four fields that Validate accepts. */
  predicate CutsAt(read: TimeReader, s: string, i: nat, j: nat, k: nat) {
    && i < j < k < |s| && s[i] == s[j] == s[k] == '|'
    && !Blank(s[..i]) && !Blank(s[i + 1..j]) && !Blank(s[j + 1..k]) && !Blank(s[k + 1..])
    && read(s[j + 1..k]).Some?
  }

  /** The bars that separate the payload's own fields. */
  predicate OwnBars(p: EventPayload, i: nat, j: nat, k: nat) {
    i == |p.chamadoId| && j == i + 1 + |p.statusNovo| && k == j + 1 + |p.timestamp|
  }

  ghost predicate CutsElsewhere(read: TimeReader, p: EventPayload) {
    exists i: nat, j: nat, k: nat :: CutsAt(read, Fields(p), i, j, k) && !OwnBars(p, i, j, k)
  }

  /** Another valid payload with the same key text that differs in one of the four fields. */
  ghost predicate Collides(read: TimeReader, p: EventPayload, q: EventPayload) {
    && Validate(read, q).Some? && Canonical(q) == Canonical(p)
    && (q.chamadoId, q.statusNovo, q.timestamp, q.tipo) != (p.chamadoId, p.statusNovo, p.timestamp, p.tipo)
  }

  lemma SameFields(p: EventPayload, q: EventPayload)
    ensures Canonical(p) == Canonical(q) <==> Fields(p) == Fields(q)
  {
    assert Canonical(p) == "v1|" + Fields(p) && Canonical(q) == "v1|" + Fields(q);
    assert Canonical(p)[3..] == Fields(p) && Canonical(q)[3..] == Fields(q);
  }

  /** Where the pieces of a joined text are. */
  lemma Pieces(a: string, b: string, c: string, d: string)
    ensures var s := a + "|" + b + "|" + c + "|" + d;
            var i, j, k := |a|, |a| + 1 + |b|, |a| + 1 + |b| + 1 + |c|;
            && k < |s| && s[i] == s[j] == s[k] == '|'
            && s[..i] == a && s[i + 1..j] == b && s[j + 1..k] == c && s[k + 1..] == d
  {
  }

  lemma Rejoined(s: string, i: nat, j: nat, k: nat)
    requires i < j < k < |s| && s[i] == s[j] == s[k] == '|'
    ensures s == s[..i] + "|" + s[i + 1..j] + "|" + s[j + 1..k] + "|" + s[k + 1..]
  {
  }

  function Recut(p: EventPayload, i: nat, j: nat, k: nat): EventPayload
    requires i < j < k < |Fields(p)|
  {
    var s := Fields(p);
    p.(chamadoId := s[..i], statusNovo := s[i + 1..j], timestamp := s[j + 1..k], tipo := s[k + 1..])
  }

  lemma RecutCollides(read: TimeReader, p: EventPayload, i: nat, j: nat, k: nat)
    requires Validate(read, p).Some? && CutsAt(read, Fields(p), i, j, k) && !OwnBars(p, i, j, k)
    ensures Collides(read, p, Recut(p, i, j, k))
  {
    Rejoined(Fields(p), i, j, k);
    SameFields(p, Recut(p, i, j, k));
  }

  /** Four acceptable fields cut the text they are joined to. */
  lemma JoinedCuts(read: TimeReader, a: string, b: string, c: string, d: string)
    requires !Blank(a) && !Blank(b) && !Blank(c) && !Blank(d) && read(c).Some?
    ensures CutsAt(read, a + "|" + b + "|" + c + "|" + d, |a|, |a| + 1 + |b|, |a| + 1 + |b| + 1 + |c|)
  {
    Pieces(a, b, c, d);
  }

  lemma ValidFields(read: TimeReader, q: EventPayload)
    requires Validate(read, q).Some?
    ensures !Blank(q.chamadoId) && !Blank(q.statusNovo) && !Blank(q.timestamp) && !Blank(q.tipo)
    ensures read(q.timestamp).Some?
  {
  }

  lemma SameBars(p: EventPayload, q: EventPayload, i: nat, j: nat, k: nat)
    requires Fields(p) == Fields(q) && OwnBars(p, i, j, k) && OwnBars(q, i, j, k)
    ensures p.chamadoId == q.chamadoId && p.statusNovo == q.statusNovo
    ensures p.timestamp == q.timestamp && p.tipo == q.tipo
  {
    Pieces(p.chamadoId, p.statusNovo, p.timestamp, p.tipo);
    Pieces(q.chamadoId, q.statusNovo, q.timestamp, q.tipo);
  }

  lemma CollisionCuts(read: TimeReader, p: EventPayload, q: EventPayload)
    requires Collides(read, p, q)
    ensures CutsElsewhere(read, p)
  {
    SameFields(p, q);
    var i := |q.chamadoId|;
    var j := i + 1 + |q.statusNovo|;
    var k := j + 1 + |q.timestamp|;
    ValidFields(read, q);
    JoinedCuts(read, q.chamadoId, q.statusNovo, q.timestamp, q.tipo);
    if OwnBars(p, i, j, k) { SameBars(p, q, i, j, k); }
  }

  /** Keys do collide, exactly so: a valid payload shares its canonical text with a valid payload that differs in one of
      the four fields if and only if other bars of that text also cut it into four acceptable fields. */
  lemma CollisionIff(read: TimeReader, p: EventPayload)
    requires Validate(read, p).Some?
    ensures CutsElsewhere(read, p) <==> exists q: EventPayload :: Collides(read, p, q)
  {
    if CutsElsewhere(read, p) {
      var i: nat, j: nat, k: nat :| CutsAt(read, Fields(p), i, j, k) && !OwnBars(p, i, j, k);
      RecutCollides(read, p, i, j, k);
    }
    forall q: EventPayload | Collides(read, p, q) ensures CutsElsewhere(read, p) {
      CollisionCuts(read, p, q);
    }
  }

  /** A payload without a bar in any of the four fields is safe from every other, bars in that one or not. */
  lemma SafeWithoutBars(read: TimeReader, p: EventPayload, q: EventPayload)
    requires Validate(read, p).Some?
    requires NoBar(p.chamadoId) && NoBar(p.statusNovo) && NoBar(p.timestamp) && NoBar(p.tipo)
    ensures !Collides(read, p, q)
  {
    if Collides(read, p, q) {
      CollisionCuts(read, p, q);
      var i: nat, j: nat, k: nat :| CutsAt(read, Fields(p), i, j, k) && !OwnBars(p, i, j, k);
      BarsAreOwn(p, i);
      BarsAreOwn(p, j);
      BarsAreOwn(p, k);
      assert false;
    }
  }

  lemma BarsAreOwn(p: EventPayload, i: nat)
    requires NoBar(p.chamadoId) && NoBar(p.statusNovo) && NoBar(p.timestamp) && NoBar(p.tipo)
    requires i < |Fields(p)| && Fields(p)[i] == '|'
    ensures var a := |p.chamadoId|;
            var b := a + 1 + |p.statusNovo|;
            i == a || i == b || i == b + 1 + |p.timestamp|
  {
  }

  function Sample(chamadoId: string, tipo: string, cpf: string, statusNovo: string, timestamp: string): EventPayload {
    EventPayload(chamadoId, tipo, cpf, "", statusNovo, "x", "y", timestamp)
  }

  lemma SampleIsValid(read: TimeReader, p: EventPayload)
    requires p == Sample(p.chamadoId, p.tipo, p.cpf, p.statusNovo, p.timestamp)
    requires !Blank(p.chamadoId) && !Blank(p.tipo) && !Blank(p.statusNovo) && !Blank(p.timestamp)
    requires NormalizeCpf11(p.cpf).Some? && read(p.timestamp).Some?
    ensures Validate(read, p).Some?
  {
    StartsWithLetter("x");
    StartsWithLetter("y");
  }

  /** One such pair, with the bar moving between chamado_id and status_novo. */
  lemma CollisionExample(read: TimeReader, ts: string, cpf: string)
    requires read(ts).Some? && !Blank(ts) && NormalizeCpf11(cpf).Some?
    ensures var p, q := Sample("A|B", "t", cpf, "C", ts), Sample("A", "t", cpf, "B|C", ts);
            Validate(read, p).Some? && Collides(read, p, q)
  {
    var p, q := Sample("A|B", "t", cpf, "C", ts), Sample("A", "t", cpf, "B|C", ts);
    StartsWithLetter("A|B");
    StartsWithLetter("t");
    StartsWithLetter("C");
    StartsWithLetter("A");
    StartsWithLetter("B|C");
    SampleIsValid(read, p);
    SampleIsValid(read, q);
    assert "A|B" + "|" + "C" == "A" + "|" + "B|C";
    SameFields(p, q);
    assert |p.chamadoId| != |q.chamadoId|;
  }

  /** Another, across timestamps: q has no bar in chamado_id or status_novo. */
  lemma CollisionAcrossTimestamps(read: TimeReader, ts1: string, ts2: string, cpf: string)
    requires read(ts1).Some? && !Blank(ts1) && read(ts2).Some? && !Blank(ts2) && NormalizeCpf11(cpf).Some?
    ensures var p, q := Sample("A", "x", cpf, "B|" + ts1, ts2), Sample("A", ts2 + "|x", cpf, "B", ts1);
            && Validate(read, p).Some? && NoBar(q.chamadoId) && NoBar(q.statusNovo)
            && Collides(read, p, q) && Collides(read, q, p)
  {
    var p, q := Sample("A", "x", cpf, "B|" + ts1, ts2), Sample("A", ts2 + "|x", cpf, "B", ts1);
    StartsWithLetter("A");
    StartsWithLetter("x");
    StartsWithLetter("B");
    StartsWithLetter("B|" + ts1);
    EndsWithLetter(ts2 + "|x");
    SampleIsValid(read, p);
    SampleIsValid(read, q);
    SameTextAcross(ts1, ts2, cpf);
  }

  lemma SameTextAcross(ts1: string, ts2: string, cpf: string)
    ensures var p, q := Sample("A", "x", cpf, "B|" + ts1, ts2), Sample("A", ts2 + "|x", cpf, "B", ts1);
            Canonical(p) == Canonical(q) && p.statusNovo != q.statusNovo
  {
    var p, q := Sample("A", "x", cpf, "B|" + ts1, ts2), Sample("A", ts2 + "|x", cpf, "B", ts1);
    assert Fields(p) == Fields(q);
    SameFields(p, q);
    assert |q.statusNovo| == 1 && |p.statusNovo| > 1;
  }

  lemma EndsWithLetter(s: string)
    requires s != "" && s[|s| - 1] == 'x'
    ensures !Blank(s)
  {
    BlankIff(s);
    assert !IsSpace(s[|s| - 1]);
  }

  lemma StartsWithLetter(s: string)
    requires s != "" && 'A' <= s[0] <= 'z'
    ensures !Blank(s)
  {
    BlankIff(s);
    assert !IsSpace(s[0]);
  }

  // ---- OutboxPayloadJSON ----

  function Optional(s: string): Option<string> {
    if Blank(s) then None else Some(TrimSpace(s))
  }

  function OutboxPayload(read: TimeReader, notification: Uuid, p: EventPayload, now: int): Payload {
    Payload(notification, p.chamadoId, p.titulo, p.descricao, now,
            Optional(p.statusAnterior), Optional(p.statusNovo), Optional(p.tipo), read(p.timestamp))
  }

  /** An optional text of the payload: left out if it is all white space, else without the space around it. */
  ghost predicate Trimmed(o: Option<string>, s: string) {
    if AllSpace(s) then o.None? else o.Some? && Trims(s, o.value)
  }

  lemma OptionalIsTrimmed(s: string)
    ensures Trimmed(Optional(s), s)
  {
    BlankIff(s);
    TrimSpaceIff(s, TrimSpace(s));
  }
}
