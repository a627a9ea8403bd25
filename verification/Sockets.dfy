/** Socket objects, the process's descriptors and the epoll interest list: Socket::close and the
    destructor (src/socket/socket.cpp), the operations of src/socket/event_poller.cpp, and the
    construction and destruction of pooled sockets.

    Operations are total.  A misuse is carried out as the kernel would and recorded in `faults`.
    `conn`, `closes` and `faults` are history: written, never read by an operation. */
module Sockets {
  import OP = ObjectPool

  type Slot = OP.Slot

  datatype Sock = Sock(fd: int, conn: int)     // m_sockfd; which accepted connection it was given
  datatype Interest = Interest(slot: Slot, armed: bool)
  datatype Holder = Foreign | Connection(id: int)
  datatype Fault = AddBadDescriptor | AddTwice | DelUnknown | CloseNotOpen | CloseForeign
                 | CloseRegistered | DoubleFree | UseAfterFree | UseForeign

  datatype World = World(
    socks: map<Slot, Sock>,          // the live socket objects
    open: map<int, Holder>,          // the process's open descriptors
    epoll: map<int, Interest>,       // the interest list, by descriptor
    nextConn: nat,                   // connections accepted so far
    closes: seq<int>,                // connections closed, in order
    faults: set<Fault>)

  ghost function Mark(k: World, f: Fault): World {
    k.(faults := k.faults + {f})
  }

  ghost function FdOf(k: World, x: Slot): int {
    if x in k.socks then k.socks[x].fd else 0
  }

  /** Reading or writing a field of x. */
  ghost function Touch(k: World, x: Slot): World {
    if x in k.socks then k else Mark(k, UseAfterFree)
  }

  /** recv or send on x. */
  ghost function Use(k: World, x: Slot): World {
    if x in k.socks && FdOf(k, x) in k.open && k.open[FdOf(k, x)] == Connection(k.socks[x].conn) then k
    else Mark(k, UseForeign)
  }

  /** A successful accept. */
  ghost function Accept(k: World, fd: int): World {
    k.(open := k.open[fd := Connection(k.nextConn)], nextConn := k.nextConn + 1)
  }

  /** Placement new of a Socket. */
  ghost function Construct(k: World, x: Slot): World {
    k.(socks := k.socks[x := Sock(0, -1)])
  }

  ghost function Assign(k: World, x: Slot, fd: int, conn: int): World {
    k.(socks := k.socks[x := Sock(fd, conn)])
  }

  /** EPOLL_CTL_ADD with EPOLLONESHOT. */
  ghost function Add(k: World, x: Slot): World {
    var fd := FdOf(k, x);
    if fd !in k.open then Mark(k, AddBadDescriptor)
    else if fd in k.epoll then Mark(k, AddTwice)
    else k.(epoll := k.epoll[fd := Interest(x, true)])
  }

  ghost function Del(k: World, x: Slot): World {
    var fd := FdOf(k, x);
    if fd !in k.epoll then Mark(k, DelUnknown) else k.(epoll := k.epoll - {fd})
  }

  /** What delivering one-shot events for these descriptors does to the interest list. */
  ghost function Disarm(k: World, fds: set<int>): World {
    k.(epoll := map fd | fd in k.epoll :: if fd in fds then Interest(k.epoll[fd].slot, false) else k.epoll[fd])
  }

  /** The guarded ::close in Socket::close; the kernel drops a closed descriptor from epoll. */
  ghost function Close(k: World, x: Slot): World {
    var fd := FdOf(k, x);
    if fd <= 0 then k
    else if fd !in k.open then Mark(k, CloseNotOpen)
    else
      var k1 := if x !in k.socks || k.open[fd] != Connection(k.socks[x].conn) then Mark(k, CloseForeign) else k;
      var k2 := if fd in k.epoll then Mark(k1, CloseRegistered) else k1;
      k2.(open := k.open - {fd}, epoll := k.epoll - {fd},
          closes := if k.open[fd].Connection? then k.closes + [k.open[fd].id] else k.closes)
  }

  /** The assignment `m_sockfd = 0` under the same guard. */
  ghost function Clear(k: World, x: Slot): World {
    if FdOf(k, x) > 0 then k.(socks := k.socks[x := Sock(0, k.socks[x].conn)]) else k
  }

  /** ObjectPool::Delete: the destructor closes again, then the object is gone. */
  ghost function Destroy(k: World, x: Slot): World {
    if x !in k.socks then Mark(k, DoubleFree)
    else var d := Clear(Close(k, x), x); d.(socks := d.socks - {x})
  }

  /** Descriptors opened and closed by the rest of the program. */
  ghost function OpenElsewhere(k: World, fd: int): World {
    k.(open := k.open[fd := Foreign])
  }

  ghost function CloseElsewhere(k: World, fd: int): World {
    k.(open := k.open - {fd})
  }

  // How a socket object relates to the kernel.

  datatype Link =
    | Blank                     // constructed, no descriptor yet
    | Refused                   // given the -1 of a failed accept
    | Loose(zero: bool)         // its own connection, open, not in epoll; zero: on descriptor 0
    | Registered(armed: bool)   // its own connection, open, in epoll under its own address
    | Gone                      // its connection is closed, m_sockfd still holds the old number
    | Cleared                   // its connection is closed, m_sockfd is 0
    | Broken                    // anything else

  ghost predicate Owns(socks: map<Slot, Sock>, open: map<int, Holder>, x: Slot)
    requires x in socks
  {
    socks[x].fd in open && socks[x].conn >= 0 && open[socks[x].fd] == Connection(socks[x].conn)
  }

  ghost function LinkOf(k: World, x: Slot): Link
    requires x in k.socks
  {
    var Sock(fd, conn) := k.socks[x];
    if conn < 0 then (if fd == 0 then Blank else if fd == -1 then Refused else Broken)
    else if Owns(k.socks, k.open, x) then
      (if fd !in k.epoll then Loose(fd == 0)
       else if k.epoll[fd].slot == x then Registered(k.epoll[fd].armed) else Broken)
    else if conn !in k.closes then Broken
    else if fd == 0 then Cleared else if fd > 0 then Gone else Broken
  }

  // What holds in every state.

  /** Live sockets were given different connections. */
  ghost predicate SocksNumbered(socks: map<Slot, Sock>, next: int) {
    && (forall x :: x in socks ==> -1 <= socks[x].conn < next)
    && (forall x, y :: x in socks && y in socks && x != y && socks[x].conn >= 0 ==> socks[x].conn != socks[y].conn)
  }

  /** Open connections are different, and none has been closed. */
  ghost predicate OpenNumbered(open: map<int, Holder>, closes: seq<int>, next: int) {
    && (forall fd :: fd in open ==> fd >= 0)
    && (forall fd :: fd in open && open[fd].Connection? ==> 0 <= open[fd].id < next && open[fd].id !in closes)
    && (forall f, g :: f in open && g in open && f != g && open[f].Connection? ==> open[f] != open[g])
  }

  /** No connection is closed twice. */
  ghost predicate ClosesNumbered(closes: seq<int>, next: int) {
    && OP.NoDuplicates(closes)
    && forall i :: 0 <= i < |closes| ==> 0 <= closes[i] < next
  }

  /** An interest is in the descriptor its own socket holds. */
  ghost predicate Wired(socks: map<Slot, Sock>, open: map<int, Holder>, epoll: map<int, Interest>) {
    forall fd :: fd in epoll ==>
      epoll[fd].slot in socks && socks[epoll[fd].slot].fd == fd && Owns(socks, open, epoll[fd].slot)
  }

  ghost predicate WorldOk(k: World) {
    && SocksNumbered(k.socks, k.nextConn)
    && OpenNumbered(k.open, k.closes, k.nextConn)
    && ClosesNumbered(k.closes, k.nextConn)
    && Wired(k.socks, k.open, k.epoll)
  }

  /** A descriptor accepted for a socket that does not carry it yet (or the -1 of a failure). */
  ghost predicate Pending(socks: map<Slot, Sock>, open: map<int, Holder>, fd: int, conn: int) {
    || (fd == -1 && conn == -1)
    || (&& conn >= 0 && fd in open && open[fd] == Connection(conn)
        && forall y :: y in socks ==> socks[y].conn != conn)
  }

  lemma PendingAfterClose(k: World, x: Slot, fd: int, conn: int)
    requires x in k.socks && LinkOf(k, x).Loose? && Pending(k.socks, k.open, fd, conn)
    ensures Pending(Close(k, x).socks, Close(k, x).open, fd, conn)
  {
  }

  lemma PendingAfterClear(k: World, x: Slot, fd: int, conn: int)
    requires x in k.socks && Pending(k.socks, k.open, fd, conn)
    ensures Pending(Clear(k, x).socks, Clear(k, x).open, fd, conn)
  {
  }

  lemma PendingAfterConstruct(k: World, x: Slot, fd: int, conn: int)
    requires x !in k.socks && Pending(k.socks, k.open, fd, conn)
    ensures Pending(Construct(k, x).socks, Construct(k, x).open, fd, conn)
    ensures |Construct(k, x).socks.Keys| == |k.socks.Keys| + 1
  {
    assert Construct(k, x).socks.Keys == k.socks.Keys + {x};
  }

  /** An operation on x: every other socket keeps its link. */
  ghost predicate OthersKept(k: World, k': World, x: Slot) {
    && (forall y :: y in k.socks && y != x ==>
          y in k'.socks && k'.socks[y] == k.socks[y] && LinkOf(k', y) == LinkOf(k, y))
    && (forall y :: y in k'.socks && y != x ==> y in k.socks)
  }

  /** Two live sockets never hold the same open descriptor. */
  lemma OwnersApart(k: World, x: Slot, y: Slot)
    requires WorldOk(k) && x in k.socks && y in k.socks && x != y
    requires Owns(k.socks, k.open, x) && Owns(k.socks, k.open, y)
    ensures k.socks[x].fd != k.socks[y].fd
  {
  }

  lemma SameLink(k: World, k': World, y: Slot)
    requires y in k.socks && y in k'.socks && k'.socks[y] == k.socks[y]
    requires Owns(k'.socks, k'.open, y) == Owns(k.socks, k.open, y)
    requires k.socks[y].conn in k.closes <==> k.socks[y].conn in k'.closes
    requires Owns(k.socks, k.open, y) ==>
      var fd := k.socks[y].fd; (fd in k.epoll <==> fd in k'.epoll) && (fd in k.epoll ==> k'.epoll[fd] == k.epoll[fd])
    ensures LinkOf(k', y) == LinkOf(k, y)
  {
  }

  lemma AcceptWorks(k: World, fd: int)
    requires WorldOk(k) && fd >= 0 && fd !in k.open
    ensures var k' := Accept(k, fd);
      && WorldOk(k') && k'.socks == k.socks
      && (forall y :: y in k.socks ==> LinkOf(k', y) == LinkOf(k, y))
      && Pending(k'.socks, k'.open, fd, k.nextConn)
  {
    var k' := Accept(k, fd);
    forall y | y in k.socks ensures LinkOf(k', y) == LinkOf(k, y) {
      assert Owns(k'.socks, k'.open, y) == Owns(k.socks, k.open, y);
    }
  }

  lemma ConstructWorks(k: World, x: Slot)
    requires WorldOk(k) && x !in k.socks
    ensures var k' := Construct(k, x);
      WorldOk(k') && OthersKept(k, k', x) && x in k'.socks && LinkOf(k', x) == Blank
  {
    OtherSocksSame(k, Construct(k, x), x);
  }

  lemma AssignWorks(k: World, x: Slot, fd: int, conn: int)
    requires WorldOk(k) && x in k.socks && LinkOf(k, x) == Blank && Pending(k.socks, k.open, fd, conn)
    ensures var k' := Assign(k, x, fd, conn);
      && WorldOk(k') && OthersKept(k, k', x) && k'.socks.Keys == k.socks.Keys
      && LinkOf(k', x) == if fd == -1 then Refused else Loose(fd == 0)
  {
    OtherSocksSame(k, Assign(k, x, fd, conn), x);
  }

  lemma AddWorks(k: World, x: Slot)
    requires WorldOk(k) && x in k.socks && LinkOf(k, x).Loose?
    ensures var k' := Add(k, x);
      && FdOf(k, x) in k.open && k'.socks == k.socks
      && WorldOk(k') && OthersKept(k, k', x) && LinkOf(k', x) == Registered(true) && k'.faults == k.faults
  {
    var k' := Add(k, x);
    forall y | y in k.socks && y != x ensures LinkOf(k', y) == LinkOf(k, y) {
      if Owns(k.socks, k.open, y) { OwnersApart(k, x, y); }
      SameLink(k, k', y);
    }
  }

  lemma AddRefused(k: World, x: Slot)
    requires WorldOk(k) && x in k.socks && LinkOf(k, x) == Refused
    ensures var k' := Add(k, x);
      && FdOf(k, x) !in k.open && k' == Mark(k, AddBadDescriptor)
      && WorldOk(k') && OthersKept(k, k', x) && LinkOf(k', x) == Refused
  {
    var k' := Add(k, x);
    forall y | y in k.socks ensures LinkOf(k', y) == LinkOf(k, y) {
      SameLink(k, k', y);
    }
  }

  lemma DelWorks(k: World, x: Slot)
    requires WorldOk(k) && x in k.socks && LinkOf(k, x).Registered?
    ensures var k' := Del(k, x);
      WorldOk(k') && OthersKept(k, k', x) && LinkOf(k', x) == Loose(k.socks[x].fd == 0) && k'.faults == k.faults
  {
    var k' := Del(k, x);
    forall y | y in k.socks && y != x ensures LinkOf(k', y) == LinkOf(k, y) {
      if Owns(k.socks, k.open, y) { OwnersApart(k, x, y); }
      SameLink(k, k', y);
    }
  }

  ghost function Disarmed(k: World, fds: set<int>, y: Slot): Link
    requires y in k.socks
  {
    if LinkOf(k, y).Registered? && k.socks[y].fd in fds then Registered(false) else LinkOf(k, y)
  }

  lemma DisarmWorks(k: World, fds: set<int>)
    requires WorldOk(k)
    ensures WorldOk(Disarm(k, fds))
    ensures forall y :: y in k.socks ==> LinkOf(Disarm(k, fds), y) == Disarmed(k, fds, y)
  {
    var k' := Disarm(k, fds);
    assert forall fd :: fd in k'.epoll <==> fd in k.epoll;
  }

  /** The guard closes the socket's connection exactly when its descriptor is not 0. */
  lemma CloseWorks(k: World, x: Slot)
    requires WorldOk(k) && x in k.socks && LinkOf(k, x).Loose?
    ensures var k' := Close(k, x);
      && WorldOk(k') && OthersKept(k, k', x) && LinkOf(k', x) == (if k.socks[x].fd == 0 then Loose(true) else Gone)
      && k'.socks == k.socks && k'.faults == k.faults
      && k'.closes == if k.socks[x].fd == 0 then k.closes else k.closes + [k.socks[x].conn]
  {
    if k.socks[x].fd != 0 {
      CloseNonzero(k, x);
    }
  }

  lemma CloseNonzero(k: World, x: Slot)
    requires WorldOk(k) && x in k.socks && LinkOf(k, x) == Loose(false)
    ensures var k' := Close(k, x);
      && WorldOk(k') && OthersKept(k, k', x) && LinkOf(k', x) == Gone
      && k'.socks == k.socks && k'.faults == k.faults && k'.closes == k.closes + [k.socks[x].conn]
  {
    var k' := Close(k, x);
    var fd, conn := k.socks[x].fd, k.socks[x].conn;
    assert k'.epoll == k.epoll && k'.open == k.open - {fd} && k'.closes == k.closes + [conn];
    CloseKeepsNumbers(k.open, k.closes, k.nextConn, fd);
    forall y | y in k.socks && y != x
      ensures Owns(k'.socks, k'.open, y) == Owns(k.socks, k.open, y) && LinkOf(k', y) == LinkOf(k, y)
    {
      assert k.socks[y].conn != conn;
      SameLink(k, k', y);
    }
  }

  lemma CloseKeepsNumbers(open: map<int, Holder>, closes: seq<int>, next: int, fd: int)
    requires OpenNumbered(open, closes, next) && ClosesNumbered(closes, next)
    requires fd in open && open[fd].Connection?
    ensures OpenNumbered(open - {fd}, closes + [open[fd].id], next)
    ensures ClosesNumbered(closes + [open[fd].id], next)
  {
  }

  lemma ClearWorks(k: World, x: Slot)
    requires WorldOk(k) && x in k.socks && LinkOf(k, x) in {Gone, Loose(true)}
    ensures var k' := Clear(k, x);
      && WorldOk(k') && OthersKept(k, k', x) && k'.socks.Keys == k.socks.Keys
      && LinkOf(k', x) == (if LinkOf(k, x) == Gone then Cleared else Loose(true)) && k'.faults == k.faults
  {
    if LinkOf(k, x) == Gone {
      ClearGone(k, x);
    }
  }

  lemma ClearGone(k: World, x: Slot)
    requires WorldOk(k) && x in k.socks && LinkOf(k, x) == Gone
    ensures var k' := Clear(k, x);
      && WorldOk(k') && OthersKept(k, k', x) && k'.socks.Keys == k.socks.Keys
      && LinkOf(k', x) == Cleared && k'.faults == k.faults
  {
    var k' := Clear(k, x);
    assert !Owns(k.socks, k.open, x);
    OtherSocksSame(k, k', x);
  }

  /** Only the object x has changed. */
  lemma OtherSocksSame(k: World, k': World, x: Slot)
    requires k' == k.(socks := k'.socks)
    requires forall y :: y in k.socks && y != x ==> y in k'.socks && k'.socks[y] == k.socks[y]
    requires forall y :: y in k'.socks && y != x ==> y in k.socks
    ensures OthersKept(k, k', x)
  {
    hide LinkOf;
    forall y | y in k.socks && y != x ensures LinkOf(k', y) == LinkOf(k, y) {
      SameLink(k, k', y);
    }
  }

  lemma DestroyWorks(k: World, x: Slot)
    requires WorldOk(k) && x in k.socks && LinkOf(k, x) in {Cleared, Loose(true)}
    ensures var k' := Destroy(k, x);
      WorldOk(k') && OthersKept(k, k', x) && k' == k.(socks := k.socks - {x})
  {
    assert k.socks[x].fd == 0;
    OtherSocksSame(k, k.(socks := k.socks - {x}), x);
  }

  /** remove closes a socket's connection, once, exactly when its descriptor is not 0; on descriptor
      0 the object is freed and the connection stays open. */
  lemma RemoveCloses(k: World, x: Slot)
    requires WorldOk(k) && x in k.socks && LinkOf(k, x).Loose?
    ensures var k' := Destroy(Clear(Close(k, x), x), x); var Sock(fd, conn) := k.socks[x];
      && WorldOk(k') && x !in k'.socks && k'.faults == k.faults
      && k'.closes == (if fd == 0 then k.closes else k.closes + [conn])
      && (fd in k'.open <==> fd == 0) && (fd == 0 ==> k'.open[fd] == Connection(conn))
  {
    CloseWorks(k, x);
    ClearWorks(Close(k, x), x);
    DestroyWorks(Clear(Close(k, x), x), x);
  }

  lemma OpenElsewhereWorks(k: World, fd: int)
    requires WorldOk(k) && fd >= 0 && fd !in k.open
    ensures var k' := OpenElsewhere(k, fd);
      WorldOk(k') && forall y :: y in k.socks ==> LinkOf(k', y) == LinkOf(k, y)
  {
    var k' := OpenElsewhere(k, fd);
    forall y | y in k.socks ensures LinkOf(k', y) == LinkOf(k, y) {
      SameLink(k, k', y);
    }
  }

  lemma CloseElsewhereWorks(k: World, fd: int)
    requires WorldOk(k) && fd in k.open && k.open[fd] == Foreign
    ensures var k' := CloseElsewhere(k, fd);
      WorldOk(k') && forall y :: y in k.socks ==> LinkOf(k', y) == LinkOf(k, y)
  {
    var k' := CloseElsewhere(k, fd);
    forall y | y in k.socks ensures LinkOf(k', y) == LinkOf(k, y) {
      SameLink(k, k', y);
    }
  }
}
