/** The ticket table: a state machine per ticket, and a queue in the order of creation. Each
    method is one transaction. */
module TicketStore {
  import opened Basics
  import opened TextOrder
  import opened TicketSlots

  datatype Action = Start | Finish | Cancel | Reopen

  /** A point in time as the clock gives it. */
  datatype Stamp = Stamp(second: nat, nano: nat)

  datatype Ticket = Ticket(
    id: TicketId, created: string, status: Status,
    startedAt: Option<Stamp>, completedAt: Option<Stamp>, cancelledAt: Option<Stamp>)

  datatype Error = NotFound | NotAllowed | EmptyQueue

  datatype Result = Ok(ticket: Ticket) | Err(error: Error)

  // ---------- The state machine ----------

  function Target(action: Action, status: Status): Option<Status> {
    match (action, status)
    case (Start, Ready) => Some(InProgress)
    case (Finish, InProgress) => Some(Done)
    case (Cancel, Ready) => Some(Cancelled)
    case (Cancel, InProgress) => Some(Cancelled)
    case (Reopen, Done) => Some(Ready)
    case (Reopen, Cancelled) => Some(Ready)
    case _ => None
  }

  /** The status tells which times are set. */
  predicate TimesFit(t: Ticket) {
    && (t.completedAt.Some? <==> t.status == Done)
    && (t.cancelledAt.Some? <==> t.status == Cancelled)
    && (t.status == InProgress ==> t.startedAt.Some?)
    && (t.status == Ready ==> t.startedAt.None?)
    && (t.status == Done ==> t.startedAt.Some?)
  }

  function Moved(t: Ticket, action: Action, target: Status, now: Stamp): Ticket {
    var timed := match action
      case Start => t.(startedAt := Some(now))
      case Finish => t.(completedAt := Some(now))
      case Cancel => t.(cancelledAt := Some(now))
      case Reopen => t.(startedAt := None, completedAt := None, cancelledAt := None);
    timed.(status := target)
  }

  /** A ticket is done only after it was in progress and leaves that only by being reopened;
      what is set on the way fits the status again. */
  lemma TransitionsFit(t: Ticket, action: Action, now: Stamp)
    requires TimesFit(t) && Target(action, t.status).Some?
    ensures TimesFit(Moved(t, action, Target(action, t.status).value, now))
    ensures Target(action, t.status).value == Done ==> t.status == InProgress
    ensures t.status == Done ==> action == Reopen && Target(action, t.status).value == Ready
  {
  }

  /** What becomes of a ticket by an action, if that is allowed. */
  function After(t: Ticket, action: Action, now: Stamp): Option<Ticket> {
    var target := Target(action, t.status);
    if target.Some? then Some(Moved(t, action, target.value, now)) else None
  }

  /** Each action is allowed in exactly these states, and notes its time; reopening forgets all. */
  lemma ActionsDecide(t: Ticket, now: Stamp)
    ensures After(t, Start, now) ==
      if t.status == Ready then Some(t.(status := InProgress, startedAt := Some(now))) else None
    ensures After(t, Finish, now) ==
      if t.status == InProgress then Some(t.(status := Done, completedAt := Some(now))) else None
    ensures After(t, Cancel, now) ==
      if t.status == Ready || t.status == InProgress then Some(t.(status := Cancelled, cancelledAt := Some(now))) else None
    ensures After(t, Reopen, now) ==
      if t.status == Done || t.status == Cancelled
      then Some(t.(status := Ready, startedAt := None, completedAt := None, cancelledAt := None)) else None
  {
  }

  // ---------- Text order ----------

  /** The last `width` decimal digits. */
  function Digits(n: nat, width: nat): (s: string)
    ensures |s| == width && forall i :: 0 <= i < width ==> '0' <= s[i] <= '9'
  {
    if width == 0 then "" else Digits(n / 10, width - 1) + [DIGITS[n % 10]]
  }

  function Pow10(w: nat): nat {
    if w == 0 then 1 else 10 * Pow10(w - 1)
  }

  lemma TensOrUnits(m: nat, n: nat)
    requires m < n
    ensures m / 10 < n / 10 || (m / 10 == n / 10 && m % 10 < n % 10)
  {
  }

  lemma TensFit(n: nat, width: nat)
    requires n < Pow10(width)
    ensures n == 0 || width > 0
    ensures width > 0 ==> n / 10 < Pow10(width - 1)
  {
  }

  lemma LastDigit(n: nat, width: nat)
    requires width > 0
    ensures Digits(n, width)[..width - 1] == Digits(n / 10, width - 1) && Digits(n, width)[width - 1] == DIGITS[n % 10]
  {
  }

  lemma DigitOrder(i: nat, j: nat)
    requires i < j < 10
    ensures DIGITS[i] < DIGITS[j]
  {
    assert forall k :: 0 <= k < 10 ==> DIGITS[k] as int == '0' as int + k;
  }

  /** Numbers of one width are ordered as their digits are. */
  lemma {:induction false} DigitsOrdered(m: nat, n: nat, width: nat) returns (k: nat)
    requires m < n < Pow10(width)
    ensures k < width && Digits(m, width)[..k] == Digits(n, width)[..k] && Digits(m, width)[k] < Digits(n, width)[k]
  {
    TensOrUnits(m, n);
    TensFit(n, width);
    LastDigit(m, width);
    LastDigit(n, width);
    hide Digits, Pow10;
    var a, b := Digits(m, width), Digits(n, width);
    if m / 10 < n / 10 {
      k := DigitsOrdered(m / 10, n / 10, width - 1);
      assert a[..k] == a[..width - 1][..k] && b[..k] == b[..width - 1][..k];
      assert a[k] == a[..width - 1][k] && b[k] == b[..width - 1][k];
    } else {
      DigitOrder(m % 10, n % 10);
      k := width - 1;
    }
  }

  function TrimZeros(s: string): (t: string)
    ensures |t| <= |s| && t == s[..|t|] && (t != "" ==> t[|t| - 1] != '0')
    ensures forall i :: |t| <= i < |s| ==> s[i] == '0'
  {
    if s != "" && s[|s| - 1] == '0' then TrimZeros(s[..|s| - 1]) else s
  }

  /** The fraction of a second without its trailing zeros. */
  function Fraction(nano: nat): string {
    TrimZeros(Digits(nano, 9))
  }

  function WithFraction(second: string, fraction: string): string {
    second + (if fraction == "" then "" else "." + fraction) + "Z"
  }

  /** The creation time as it is stored, after the text of its second. */
  function Text(second: string, nano: nat): string {
    WithFraction(second, Fraction(nano))
  }

  /** Where times of one second first differ as text. */
  lemma FractionsDiffer(m: nat, n: nat) returns (k: nat)
    requires m < n < Pow10(9)
    ensures var f, g := Fraction(m), Fraction(n);
      && k < |g| && g != ""
      && (f <= g ==> k == |f|)
      && (!(f <= g) ==> k < |f| && f[..k] == g[..k] && f[k] < g[k])
  {
    hide Digits, TrimZeros, Pow10;
    var f, g := Fraction(m), Fraction(n);
    var a, b := Digits(m, 9), Digits(n, 9);
    k := DigitsOrdered(m, n, 9);
    assert k < |g|;
    if k < |f| {
      assert f[..k] == a[..k] == b[..k] == g[..k];
      assert f[k] == a[k] && g[k] == b[k];
      assert f[k] != g[k];
    } else {
      assert f == a[..|f|] == a[..k][..|f|] == b[..k][..|f|] == b[..|f|] == g[..|f|];
      k := |f|;
    }
  }

  lemma PrefixComesLater(second: string, f: string, g: string)
    requires f <= g && |f| < |g| && forall i :: 0 <= i < |g| ==> '0' <= g[i] <= '9'
    ensures Before(WithFraction(second, g), WithFraction(second, f))
  {
    var a, b := WithFraction(second, f), WithFraction(second, g);
    var at := if f == "" then |second| else |second| + 1 + |f|;
    if f == "" {
      assert a == second + "Z";
      assert a[..at] == second == b[..at];
      assert b[at] == '.';
    } else {
      assert a == second + "." + f + "Z" && b == second + "." + g + "Z";
      assert a[..at] == second + "." + f == second + "." + g[..|f|] == b[..at];
      assert b[at] == g[|f|];
    }
    assert a[at] == 'Z';
    assert BeforeAt(b, a, at);
  }

  lemma DifferenceDecides(second: string, f: string, g: string, k: nat)
    requires k < |f| && k < |g| && f[..k] == g[..k] && f[k] < g[k]
    ensures Before(WithFraction(second, f), WithFraction(second, g))
  {
    var a, b := WithFraction(second, f), WithFraction(second, g);
    var at := |second| + 1 + k;
    assert a == second + "." + f + "Z" && b == second + "." + g + "Z";
    assert a[..at] == second + "." + f[..k] == second + "." + g[..k] == b[..at];
    assert a[at] == f[k] && b[at] == g[k];
    assert BeforeAt(a, b, at);
  }

  /** Within one second the text order of two creation times is their time order exactly when
      the earlier fraction, without trailing zeros, is not a prefix of the later one. */
  lemma TextOrderIsTimeOrderIff(second: string, m: nat, n: nat)
    requires m < n < Pow10(9)
    ensures Before(Text(second, m), Text(second, n)) <==> !(Fraction(m) <= Fraction(n))
    ensures Before(Text(second, n), Text(second, m)) <==> Fraction(m) <= Fraction(n)
  {
    var f, g := Fraction(m), Fraction(n);
    var k := FractionsDiffer(m, n);
    if f <= g {
      PrefixComesLater(second, f, g);
      var at: nat :| BeforeAt(Text(second, n), Text(second, m), at);
      BeforeIsStrict(Text(second, n), Text(second, m), at);
    } else {
      DifferenceDecides(second, f, g, k);
      var at: nat :| BeforeAt(Text(second, m), Text(second, n), at);
      BeforeIsStrict(Text(second, m), Text(second, n), at);
    }
  }

  lemma {:induction false} ZeroHasNoFraction(width: nat)
    ensures Digits(0, width) == seq(width, _ => '0') && TrimZeros(Digits(0, width)) == ""
  {
    if width > 0 {
      ZeroHasNoFraction(width - 1);
    }
  }

  // ---------- Seconds ----------

  /** A field of a date and time: its digits and what stands behind them. */
  datatype Field = Field(value: nat, width: nat, mark: string)

  /** A second in universal time. */
  datatype Second = Second(year: nat, month: nat, day: nat, hour: nat, minute: nat, second: nat) {
    function Fields(): seq<Field> {
      [Field(year, 4, "-"), Field(month, 2, "-"), Field(day, 2, "T"),
       Field(hour, 2, ":"), Field(minute, 2, ":"), Field(second, 2, "")]
    }
  }

  function FieldsText(fs: seq<Field>): string {
    if fs == [] then "" else Digits(fs[0].value, fs[0].width) + fs[0].mark + FieldsText(fs[1..])
  }

  predicate AllFit(fs: seq<Field>) {
    forall i :: 0 <= i < |fs| ==> fs[i].value < Pow10(fs[i].width)
  }

  predicate SameForm(f: seq<Field>, g: seq<Field>) {
    |f| == |g| && forall i :: 0 <= i < |f| ==> f[i].width == g[i].width && f[i].mark == g[i].mark
  }

  /** The first field that differs decides. */
  predicate EarlierFields(f: seq<Field>, g: seq<Field>)
    requires |f| == |g|
  {
    f != [] && (f[0].value < g[0].value || (f[0].value == g[0].value && EarlierFields(f[1..], g[1..])))
  }

  /** Years have four digits, other fields two. */
  predicate IsSecond(s: Second) {
    AllFit(s.Fields())
  }

  predicate Earlier(s: Second, t: Second) {
    EarlierFields(s.Fields(), t.Fields())
  }

  lemma {:induction false} FieldsOrdered(f: seq<Field>, g: seq<Field>)
    requires SameForm(f, g) && AllFit(f) && AllFit(g) && EarlierFields(f, g)
    ensures Before(FieldsText(f), FieldsText(g))
    decreases |f|
  {
    var x, y := Digits(f[0].value, f[0].width), Digits(g[0].value, g[0].width);
    var p, q := FieldsText(f[1..]), FieldsText(g[1..]);
    assert |x| == |y| && f[0].mark == g[0].mark && f[0].value < Pow10(f[0].width) && g[0].value < Pow10(f[0].width);
    assert SameForm(f[1..], g[1..]) && AllFit(f[1..]) && AllFit(g[1..]);
    assert FieldsText(f) == x + f[0].mark + p && FieldsText(g) == y + f[0].mark + q;
    hide *;
    if f[0].value < g[0].value {
      DigitsBefore(f[0].value, g[0].value, f[0].width);
      FrontDecides(x, y, f[0].mark, f[0].mark);
      FrontDecides(x + f[0].mark, y + f[0].mark, p, q);
    } else {
      FieldsOrdered(f[1..], g[1..]);
      BackDecides(x + f[0].mark, p, q);
    }
  }

  lemma {:induction false} NotEarlierThanItself(f: seq<Field>)
    ensures !EarlierFields(f, f)
    decreases |f|
  {
    if f != [] {
      NotEarlierThanItself(f[1..]);
    }
  }

  lemma DigitsBefore(m: nat, n: nat, width: nat)
    requires m < n < Pow10(width)
    ensures Before(Digits(m, width), Digits(n, width))
  {
    var k := DigitsOrdered(m, n, width);
    assert BeforeAt(Digits(m, width), Digits(n, width), k);
  }

  lemma {:induction false} SameLength(f: seq<Field>, g: seq<Field>)
    requires SameForm(f, g)
    ensures |FieldsText(f)| == |FieldsText(g)|
    decreases |f|
  {
    if f != [] {
      SameLength(f[1..], g[1..]);
    }
  }

  /** The creation time as the table stores it. */
  function Stored(s: Second, nano: nat): string {
    Text(FieldsText(s.Fields()), nano)
  }

  /** Across seconds the order of the texts is the order in time, whatever the fractions are. */
  lemma SecondsKeepOrder(s: Second, t: Second, m: nat, n: nat)
    requires IsSecond(s) && IsSecond(t) && Earlier(s, t)
    ensures Before(Stored(s, m), Stored(t, n))
  {
    FieldsOrdered(s.Fields(), t.Fields());
    SameLength(s.Fields(), t.Fields());
    var x, y := FieldsText(s.Fields()), FieldsText(t.Fields());
    var p := (if Fraction(m) == "" then "" else "." + Fraction(m)) + "Z";
    var q := (if Fraction(n) == "" then "" else "." + Fraction(n)) + "Z";
    FrontDecides(x, y, p, q);
    assert Stored(s, m) == x + p && Stored(t, n) == y + q;
  }

  // ---------- The queue ----------

  /** The order in which ready tickets are taken. */
  ghost predicate Precedes(a: Ticket, b: Ticket) {
    Before(a.created, b.created) || (a.created == b.created && a.id < b.id)
  }

  /** Of two tickets the earlier one is taken first exactly unless both are of one second and its
      fraction, without trailing zeros, is a prefix of the later one's. */
  lemma ClaimOrderIsTimeOrderIff(a: Ticket, b: Ticket, s: Second, m: nat, t: Second, n: nat)
    requires IsSecond(s) && IsSecond(t) && m < Pow10(9) && n < Pow10(9)
    requires a.created == Stored(s, m) && b.created == Stored(t, n) && (Earlier(s, t) || (s == t && m < n))
    ensures Precedes(a, b) <==> !(s == t && Fraction(m) <= Fraction(n))
    ensures Precedes(b, a) <==> s == t && Fraction(m) <= Fraction(n)
  {
    hide Before, Pow10, Text, FieldsText, Fraction;
    if s == t {
      NotEarlierThanItself(s.Fields());
      NotBeforeItself(a.created);
      NotBeforeItself(b.created);
      TextOrderIsTimeOrderIff(FieldsText(s.Fields()), m, n);
    } else {
      SecondsKeepOrder(s, t, m, n);
      NotBothBefore(a.created, b.created);
      NotBeforeItself(a.created);
    }
  }

  /** So it happens: a ticket of a whole second is taken after every later one of that second. */
  lemma WholeSecondComesLast(whole: Ticket, later: Ticket, s: Second, n: nat)
    requires IsSecond(s) && 0 < n < Pow10(9) && whole.created == Stored(s, 0) && later.created == Stored(s, n)
    ensures Precedes(later, whole) && !Precedes(whole, later)
  {
    ZeroHasNoFraction(9);
    ClaimOrderIsTimeOrderIff(whole, later, s, 0, s, n);
  }

  // ---------- The table ----------

  class Table {
    var tickets: map<TicketId, Ticket>
    var nextId: TicketId

    /** Every ticket is filed under its ID, and its times fit its status. */
    ghost predicate Valid()
      reads this
    {
      forall id :: id in tickets ==> tickets[id].id == id && id < nextId && TimesFit(tickets[id])
    }

    constructor ()
      ensures Valid() && tickets == map[]
    {
      tickets, nextId := map[], 1;
    }

    method Insert(created: string) returns (ticket: Ticket)
      requires Valid()
      modifies this
      ensures Valid() && ticket.id !in old(tickets) && tickets == old(tickets)[ticket.id := ticket]
      ensures ticket.status == Ready && ticket.created == created
    {
      ticket := Ticket(nextId, created, Ready, None, None, None);
      tickets := tickets[nextId := ticket];
      nextId := nextId + 1;
    }

    /** The ready ticket that no other ready ticket precedes. */
    method FirstReady() returns (first: Option<TicketId>)
      requires Valid()
      ensures first.None? <==> forall id :: id in tickets ==> tickets[id].status != Ready
      ensures first.Some? ==>
        && first.value in tickets && tickets[first.value].status == Ready
        && forall id :: id in tickets && tickets[id].status == Ready && id != first.value ==> Precedes(tickets[first.value], tickets[id])
    {
      first := None;
      var left := tickets.Keys;
      while left != {}
        invariant left <= tickets.Keys
        invariant first.None? ==> forall id :: id in tickets && id !in left ==> tickets[id].status != Ready
        invariant first.Some? ==>
          && first.value in tickets && first.value !in left && tickets[first.value].status == Ready
          && forall id :: id in tickets && id !in left && tickets[id].status == Ready && id != first.value ==>
               Precedes(tickets[first.value], tickets[id])
        decreases |left|
      {
        var id :| id in left;
        left := left - {id};
        if tickets[id].status == Ready {
          if first.None? {
            first := Some(id);
          } else {
            var sooner := Sooner(tickets[id], tickets[first.value]);
            if sooner {
              PrecedesAll(id, first.value);
              first := Some(id);
            }
          }
        }
      }
    }

    lemma PrecedesAll(a: TicketId, b: TicketId)
      requires a in tickets && b in tickets && Precedes(tickets[a], tickets[b])
      ensures forall id :: id in tickets && Precedes(tickets[b], tickets[id]) ==> Precedes(tickets[a], tickets[id])
    {
      forall id | id in tickets && Precedes(tickets[b], tickets[id]) ensures Precedes(tickets[a], tickets[id]) {
        PrecedesChains(tickets[a], tickets[b], tickets[id]);
      }
    }

    method Sooner(a: Ticket, b: Ticket) returns (yes: bool)
      requires a.id != b.id
      ensures yes <==> Precedes(a, b)
      ensures !yes ==> Precedes(b, a)
    {
      var before := TextBefore(a.created, b.created);
      yes := before || (a.created == b.created && a.id < b.id);
    }

    method Next(now: Stamp) returns (r: Result)
      requires Valid()
      modifies this`tickets
      ensures Valid()
      ensures r.Err? <==> forall id :: id in old(tickets) ==> old(tickets)[id].status != Ready
      ensures r.Err? ==> r.error == EmptyQueue && tickets == old(tickets)
      ensures r.Ok? ==>
        && r.ticket.id in old(tickets) && old(tickets)[r.ticket.id].status == Ready
        && r.ticket == old(tickets)[r.ticket.id].(status := InProgress, startedAt := Some(now))
        && tickets == old(tickets)[r.ticket.id := r.ticket]
        && forall id :: id in old(tickets) && old(tickets)[id].status == Ready && id != r.ticket.id ==>
             Precedes(old(tickets)[r.ticket.id], old(tickets)[id])
    {
      var first := FirstReady();
      if first.None? {
        return Err(EmptyQueue);
      }
      var ticket := tickets[first.value];
      ticket := ticket.(status := InProgress);
      ticket := ticket.(startedAt := Some(now));
      tickets := tickets[ticket.id := ticket];
      return Ok(ticket);
    }

    method Transition(id: TicketId, action: Action, now: Stamp) returns (r: Result)
      requires Valid()
      modifies this`tickets
      ensures Valid()
      ensures r == if id !in old(tickets) then Err(NotFound)
                   else match Target(action, old(tickets)[id].status)
                     case None => Err(NotAllowed)
                     case Some(target) => Ok(Moved(old(tickets)[id], action, target, now))
      ensures tickets == if r.Ok? then old(tickets)[id := r.ticket] else old(tickets)
    {
      if id !in tickets {
        return Err(NotFound);
      }
      var ticket := tickets[id];
      var target := Target(action, ticket.status);
      if target.None? {
        return Err(NotAllowed);
      }
      TransitionsFit(ticket, action, now);
      match action {
        case Start => ticket := ticket.(startedAt := Some(now));
        case Finish => ticket := ticket.(completedAt := Some(now));
        case Cancel => ticket := ticket.(cancelledAt := Some(now));
        case Reopen =>
          ticket := ticket.(startedAt := None);
          ticket := ticket.(completedAt := None);
          ticket := ticket.(cancelledAt := None);
      }
      ticket := ticket.(status := target.value);
      tickets := tickets[id := ticket];
      return Ok(ticket);
    }

    method Requeue(id: TicketId) returns (r: Result)
      requires Valid()
      modifies this`tickets
      ensures Valid()
      ensures r.Ok? <==> id in old(tickets) && old(tickets)[id].status == InProgress
      ensures r.Ok? ==> r.ticket == old(tickets)[id].(status := Ready, startedAt := None)
      ensures r == Err(NotFound) <==> id !in old(tickets)
      ensures tickets == if r.Ok? then old(tickets)[id := r.ticket] else old(tickets)
    {
      if id !in tickets {
        return Err(NotFound);
      }
      var ticket := tickets[id];
      if ticket.status != InProgress {
        return Err(NotAllowed);
      }
      ticket := ticket.(status := Ready);
      ticket := ticket.(startedAt := None);
      tickets := tickets[id := ticket];
      return Ok(ticket);
    }
  }

  lemma PrecedesChains(a: Ticket, b: Ticket, c: Ticket)
    requires Precedes(a, b) && Precedes(b, c)
    ensures Precedes(a, c)
  {
    if Before(a.created, b.created) && Before(b.created, c.created) {
      BeforeChains(a.created, b.created, c.created);
    }
  }
}
