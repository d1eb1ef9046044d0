/** Listing a citizen's notifications page by page (internal/httpapi/notifications.go,
    internal/repo/notifications.go). */
module Pagination {
  import opened Wrappers
  import opened Uuids
  import opened Ordering

  const DEFAULT_LIMIT := 20
  const MAX_LIMIT := 100
  const MAX_INT64 := 0x7FFF_FFFF_FFFF_FFFF

  // ---- query arguments ----

  predicate AllDigits(s: string) {
    forall i | 0 <= i < |s| :: '0' <= s[i] <= '9'
  }

  function DigitsValue(s: string): nat
    requires AllDigits(s)
  {
    if s == "" then 0
    else
      assert '0' <= s[|s| - 1] <= '9';
      DigitsValue(s[..|s| - 1]) * 10 + (s[|s| - 1] as nat - '0' as nat)
  }

  /** strconv.Atoi: an optional sign, then digits only, within the 64-bit range. */
  function Atoi(s: string): Option<int> {
    var signed := s != "" && (s[0] == '+' || s[0] == '-');
    var digits := if signed then s[1..] else s;
    if digits == "" || !AllDigits(digits) then None
    else
      var n: int := DigitsValue(digits);
      var v := if signed && s[0] == '-' then -n else n;
      if -MAX_INT64 - 1 <= v <= MAX_INT64 then Some(v) else None
  }

  datatype Parsed = Window(limit: int, offset: int) | InvalidLimit | InvalidOffset

  /** An absent argument reads as the empty text; the limit is judged before the offset. */
  function ParsePagination(limitText: string, offsetText: string): Parsed {
    var limit := Atoi(limitText);
    var offset := Atoi(offsetText);
    if limitText != "" && (limit.None? || limit.value < 1) then InvalidLimit
    else if offsetText != "" && (offset.None? || offset.value < 0) then InvalidOffset
    else
      Window(if limitText == "" then DEFAULT_LIMIT else if limit.value > MAX_LIMIT then MAX_LIMIT else limit.value,
             if offsetText == "" then 0 else offset.value)
  }

  /** The decimal text of a number, as the response echoes it. */
  function Text(n: nat): (s: string)
    ensures s != ""
  {
    var last := [('0' as int + n % 10) as char];
    if n < 10 then last else Text(n / 10) + last
  }

  lemma {:induction false} TextReads(n: nat)
    ensures AllDigits(Text(n)) && DigitsValue(Text(n)) == n
  {
    var s := Text(n);
    if n < 10 {
      assert s[..0] == "";
    } else {
      TextReads(n / 10);
      assert s[..|s| - 1] == Text(n / 10);
      assert forall i | 0 <= i < |s| - 1 :: s[i] == Text(n / 10)[i];
    }
  }

  /** It is the usual one: the digit of a number below ten, and for a larger number its tenth followed by its last
      digit. */
  lemma TextIsDecimal(n: nat, d: nat)
    requires d < 10
    ensures Text(d) == ["0123456789"[d]]
    ensures n > 0 ==> Text(10 * n + d) == Text(n) + ["0123456789"[d]]
  {
    assert (10 * n + d) / 10 == n && (10 * n + d) % 10 == d;
    assert ('0' as int + d) as char == "0123456789"[d];
  }

  /** Every accepted request gets a limit from 1 to 100 and an offset the database takes, and the window it is told it
      got, sent back, gets the same window. */
  lemma EchoIsStable(limitText: string, offsetText: string)
    requires ParsePagination(limitText, offsetText).Window?
    ensures var w := ParsePagination(limitText, offsetText);
            && 1 <= w.limit <= MAX_LIMIT && 0 <= w.offset <= MAX_INT64
            && ParsePagination(Text(w.limit), Text(w.offset)) == w
  {
    var w := ParsePagination(limitText, offsetText);
    TextReadsAs(w.limit);
    TextReadsAs(w.offset);
  }

  /** What a request with two decimal numbers gets: the limit clamped to 100, the offset as it is, and a refusal for a
      limit of zero or a number beyond 64 bits, the limit judged first. */
  lemma NumbersAreRead(n: nat, m: nat)
    ensures ParsePagination(Text(n), Text(m))
            == if n < 1 || n > MAX_INT64 then InvalidLimit
               else if m > MAX_INT64 then InvalidOffset
               else Window(if n > 100 then 100 else n, m)
  {
    TextReadsAs(n);
    TextReadsAs(m);
  }

  lemma TextReadsAs(n: nat)
    ensures Atoi(Text(n)) == if n <= MAX_INT64 then Some(n) else None
  {
    TextReads(n);
    assert '0' <= Text(n)[0] <= '9';
  }

  /** What absent arguments stand for. */
  lemma AbsentArguments(n: nat)
    ensures ParsePagination("", "") == Window(20, 0)
    ensures ParsePagination(Text(n), "")
            == if n < 1 || n > MAX_INT64 then InvalidLimit else Window(if n > 100 then 100 else n, 0)
    ensures ParsePagination("", Text(n)) == if n > MAX_INT64 then InvalidOffset else Window(20, n)
  {
    TextReadsAs(n);
  }

  lemma SignedReads(n: nat)
    ensures Atoi("+" + Text(n)) == if n <= MAX_INT64 then Some(n) else None
    ensures Atoi("-" + Text(n)) == if n <= MAX_INT64 + 1 then Some(0 - n as int) else None
  {
    TextReads(n);
    assert ("+" + Text(n))[1..] == Text(n) && ("-" + Text(n))[1..] == Text(n);
  }

  /** A sign is read as one: a plus changes nothing, a negative limit or offset is refused. */
  lemma SignedArguments(n: nat)
    ensures ParsePagination("+" + Text(n), "") == ParsePagination(Text(n), "")
    ensures ParsePagination("", "+" + Text(n)) == ParsePagination("", Text(n))
    ensures ParsePagination("-" + Text(n), "") == InvalidLimit
    ensures ParsePagination("", "-" + Text(n)) == if n == 0 then Window(20, 0) else InvalidOffset
  {
    SignedReads(n);
    TextReadsAs(n);
  }

  /** Nothing but digits, after at most one sign, is read as a number: any other present argument is refused. */
  lemma OnlyNumbersPass(limitText: string, offsetText: string, i: nat)
    requires i < |limitText| && !('0' <= limitText[i] <= '9') && (i > 0 || |limitText| == 1 || limitText[0] !in "+-")
    ensures ParsePagination(limitText, offsetText) == InvalidLimit
    ensures !ParsePagination(offsetText, limitText).Window?
  {
    var signed := limitText[0] == '+' || limitText[0] == '-';
    if signed && |limitText| > 1 {
      assert limitText[1..][i - 1] == limitText[i];
    }
  }

  // ---- ORDER BY created_at DESC, id DESC ----

  predicate IsGreatest(x: Uuid, ids: set<Uuid>, at: map<Uuid, int>)
    requires ids <= at.Keys
  {
    x in ids && forall y | y in ids && y != x :: Before(at, y, x)
  }

  function Reversed<T>(s: seq<T>): seq<T> {
    seq(|s|, i requires 0 <= i < |s| => s[|s| - 1 - i])
  }

  lemma ReversedMembers<T>(s: seq<T>)
    ensures forall x :: x in Reversed(s) <==> x in s
  {
    forall x | x in s ensures x in Reversed(s) {
      var i :| 0 <= i < |s| && s[i] == x;
      assert Reversed(s)[|s| - 1 - i] == x;
    }
  }

  /** The ids newest first. */
  ghost function Newest(ids: set<Uuid>, at: map<Uuid, int>): seq<Uuid>
    requires ids <= at.Keys
  {
    Reversed(Ascending(ids, at))
  }

  lemma GreatestExists(ids: set<Uuid>, at: map<Uuid, int>) returns (x: Uuid)
    requires ids != {} && ids <= at.Keys
    ensures IsGreatest(x, ids, at)
  {
    var s := Ascending(ids, at);
    AscendingOrders(ids, at);
    x := s[|s| - 1];
    assert x in s;
    forall y | y in ids && y != x ensures Before(at, y, x) {
      var i :| 0 <= i < |s| && s[i] == y;
    }
  }

  lemma {:induction false} GreatestIsLast(ids: set<Uuid>, at: map<Uuid, int>, x: Uuid)
    requires ids <= at.Keys && IsGreatest(x, ids, at)
    ensures Ascending(ids, at) == Ascending(ids - {x}, at) + [x]
    decreases |ids|
  {
    var l := LeastExists(ids, at);
    AscendingCons(ids, at, l);
    if l == x {
      assert ids - {x} == {} by {
        forall y | y in ids ensures y == x {}
      }
    } else {
      GreatestIsLast(ids - {l}, at, x);
      assert IsLeast(l, ids - {x}, at);
      AscendingCons(ids - {x}, at, l);
      assert ids - {l} - {x} == ids - {x} - {l};
    }
  }

  lemma NewestCons(ids: set<Uuid>, at: map<Uuid, int>, x: Uuid)
    requires ids <= at.Keys && IsGreatest(x, ids, at)
    ensures Newest(ids, at) == [x] + Newest(ids - {x}, at)
  {
    GreatestIsLast(ids, at, x);
  }

  method TakeNewest(ids: set<Uuid>, at: map<Uuid, int>) returns (x: Uuid, ghost rest: seq<Uuid>)
    requires ids != {} && ids <= at.Keys
    ensures x in ids && rest == Newest(ids - {x}, at) && Newest(ids, at) == [x] + rest
  {
    ghost var g := GreatestExists(ids, at);
    x :| x in ids && IsGreatest(x, ids, at);
    NewestCons(ids, at, x);
    rest := Newest(ids - {x}, at);
  }

  /** Every id once, each strictly after the next in (created_at, id). */
  lemma NewestOrders(ids: set<Uuid>, at: map<Uuid, int>)
    requires ids <= at.Keys
    ensures |Newest(ids, at)| == |ids|
    ensures forall x :: x in Newest(ids, at) <==> x in ids
    ensures forall i, j | 0 <= i < j < |ids| :: Before(at, Newest(ids, at)[j], Newest(ids, at)[i])
  {
    AscendingOrders(ids, at);
    var s, r := Ascending(ids, at), Newest(ids, at);
    ReversedMembers(s);
    forall i, j | 0 <= i < j < |ids| ensures Before(at, r[j], r[i]) {
      assert r[i] == s[|s| - 1 - i] && r[j] == s[|s| - 1 - j];
      assert s[|s| - 1 - j] in s && s[|s| - 1 - i] in s;
    }
  }

  /** An id's place in the listing is the number of ids newer than it. */
  lemma {:induction false} NewestRank(ids: set<Uuid>, at: map<Uuid, int>, k: nat, e: Uuid)
    requires ids <= at.Keys && k < |Newest(ids, at)| && e == Newest(ids, at)[k]
    ensures e in ids && |set y | y in ids && (at[y] > at[e] || (at[y] == at[e] && y > e))| == k
    decreases k
  {
    NewestOrders(ids, at);
    assert e in Newest(ids, at);
    var newer := set y | y in ids && (at[y] > at[e] || (at[y] == at[e] && y > e));
    var x := GreatestExists(ids, at);
    NewestCons(ids, at, x);
    if k == 0 {
      assert newer == {};
    } else {
      var rest := ids - {x};
      NewestRank(rest, at, k - 1, e);
      assert newer == (set y | y in rest && (at[y] > at[e] || (at[y] == at[e] && y > e))) + {x};
    }
  }

  // ---- pages ----

  function Min(a: int, b: int): int {
    if a < b then a else b
  }

  /** LIMIT and OFFSET. */
  function Page<T>(all: seq<T>, limit: nat, offset: nat): seq<T> {
    all[Min(offset, |all|)..Min(offset + limit, |all|)]
  }

  /** What a client collects that asks for the given limit from an offset on, and moves on by the echoed limit until it
      has passed the total. */
  function Walk<T>(all: seq<T>, limitText: string, offset: nat): seq<T>
    requires ParsePagination(limitText, "").Window?
    decreases |all| - offset
  {
    if offset >= |all| then []
    else
      var limit := ParsePagination(limitText, "").limit;
      Page(all, limit, offset) + Walk(all, limitText, offset + limit)
  }

  function Requests<T>(all: seq<T>, limitText: string, offset: nat): nat
    requires ParsePagination(limitText, "").Window?
    decreases |all| - offset
  {
    if offset >= |all| then 0
    else 1 + Requests(all, limitText, offset + ParsePagination(limitText, "").limit)
  }

  lemma {:induction false} WalkIsRest<T>(all: seq<T>, limitText: string, offset: nat)
    requires ParsePagination(limitText, "").Window?
    ensures Walk(all, limitText, offset) == all[Min(offset, |all|)..]
    decreases |all| - offset
  {
    if offset < |all| {
      WalkIsRest(all, limitText, offset + ParsePagination(limitText, "").limit);
    }
  }

  /** Coverage: whatever limit the client asks for, the walk from offset 0 yields every notification of the citizen
      exactly once, strictly newest first. */
  lemma WalkCovers(ids: set<Uuid>, at: map<Uuid, int>, limitText: string)
    requires ids <= at.Keys && ParsePagination(limitText, "").Window?
    ensures var got := Walk(Newest(ids, at), limitText, 0);
            && |got| == |ids| && (forall x :: x in got <==> x in ids)
            && forall i, j | 0 <= i < j < |got| :: got[i] in at && got[j] in at && Before(at, got[j], got[i])
  {
    WalkIsRest(Newest(ids, at), limitText, 0);
    NewestOrders(ids, at);
    assert forall i | 0 <= i < |ids| :: Newest(ids, at)[i] in Newest(ids, at);
  }

  lemma OnePageMore(n: int, limit: int, rest: int)
    requires (n - 1) * limit < rest <= n * limit
    ensures n * limit < rest + limit <= (n + 1) * limit
  {
    assert (n + 1) * limit == n * limit + limit;
    assert (n - 1) * limit == n * limit - limit;
  }

  /** With the limit the server grants, the walk takes exactly as many requests as there are pages. */
  lemma {:induction false} WalkRequests<T>(all: seq<T>, limitText: string, offset: nat)
    requires ParsePagination(limitText, "").Window? && offset <= |all|
    ensures var limit := ParsePagination(limitText, "").limit;
            var n := Requests(all, limitText, offset);
            (n - 1) * limit < |all| - offset <= n * limit
    decreases |all| - offset
  {
    var limit := ParsePagination(limitText, "").limit;
    if offset + limit < |all| {
      WalkRequests(all, limitText, offset + limit);
      OnePageMore(Requests(all, limitText, offset + limit), limit, |all| - offset - limit);
    } else if offset < |all| {
      assert Requests(all, limitText, offset + limit) == 0;
    }
  }
}
