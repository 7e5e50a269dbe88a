/** Message values, statuses and the bounded inbox shared by rooms and sessions. */
module Messages {

  /** The text form of an address; the emitter and the room map are keyed by it. */
  type Id = string

  datatype Option<+T> = None | Some(value: T)

  /** state.Status as rooms use it: `ErrorStatus` is never set on a room. */
  datatype Status = Init | Running | Closed

  /** A room message; decoding and re-encoding a package gives the same value back. */
  datatype Message =
    | Broadcast(data: string, from: Id, includeSelf: bool)
    | Unicast(data: string, from: Id, to: Option<Id>)
    | Ping(from: Id)
    | Start(room: Id)
    | Close(room: Id, reason: CloseReason)
    | Join(who: Id)
    | Leave(who: Id)
    | Unknown

  datatype CloseReason = NoReason | NoUseInitRoom | NoUserRoom | NoUseRoom | MaxTimeRoom

  const CAPACITY: nat := 2000
  const SECOND: int := 1_000_000_000
  const MINUTE: int := 60 * SECOND
  const HOUR: int := 60 * MINUTE

  /** A bounded channel: everything ever placed in it, and how many items were taken out. */
  datatype Inbox = Inbox(placed: seq<Message>, taken: nat) {
    predicate Full() { |placed| - taken >= CAPACITY }

    predicate Valid() { taken <= |placed| <= taken + CAPACITY }

    /** A send that times out on a full channel leaves it as it was. */
    function Put(m: Message): Inbox {
      if Full() then this else Inbox(placed + [m], taken)
    }
  }

  const EMPTY_INBOX := Inbox([], 0)

  predicate Distinct<T(==)>(xs: seq<T>) {
    forall i, j :: 0 <= i < j < |xs| ==> xs[i] != xs[j]
  }

  /** `xs` with every occurrence of `x` dropped, in order. */
  function Without<T(==)>(xs: seq<T>, x: T): (r: seq<T>)
    ensures |r| <= |xs|
    ensures x !in r
    ensures forall y :: y in r ==> y in xs && y != x
    ensures forall y :: y in xs && y != x ==> y in r
    ensures Distinct(xs) ==> Distinct(r)
  {
    if xs == [] then []
    else if xs[0] == x then Without(xs[1..], x)
    else
      var r := Without(xs[1..], x);
      assert xs == [xs[0]] + xs[1..];
      assert Distinct(xs) ==> Distinct(xs[1..]) && xs[0] !in xs[1..];
      [xs[0]] + r
  }

  /** The occurrences of `x` in `xs`. */
  function Only<T(==)>(xs: seq<T>, x: T): (r: seq<T>)
    ensures forall y :: y in r ==> y in xs && y == x
    ensures x in xs ==> x in r
    ensures Distinct(xs) ==> Distinct(r)
  {
    if xs == [] then []
    else if xs[0] == x then
      assert xs == [xs[0]] + xs[1..];
      [x] + Only(xs[1..], x)
    else Only(xs[1..], x)
  }

  /** Which of a room's members a message the room handles goes to. */
  function Recipients(m: Message, conns: seq<Id>): (r: seq<Id>)
    ensures forall c :: c in r ==> c in conns
    ensures Distinct(conns) ==> Distinct(r)
  {
    match m
    case Broadcast(_, from, includeSelf) => if includeSelf then conns else Without(conns, from)
    case Unicast(_, _, Some(to)) => Only(conns, to)
    case Unicast(_, _, None) => []
    case Ping(_) => []
    case Unknown => []
    case _ => conns
  }
}
