/** The booking listings `GET /services`, `GET /services/user/:userId` and
    `GET /services/admin/:adminId`, and the ordering they share with `GET /users`:
    the rows that match, newest `createdAt` first. */
module Listing {
  import opened Domain

  /** Keys never increase from front to back. */
  predicate NewestFirst<T>(s: seq<T>, key: T -> int)
  {
    forall i, j :: 0 <= i < j < |s| ==> key(s[i]) >= key(s[j])
  }

  /** `x` placed in front of the first element with a smaller key. */
  function Insert<T>(x: T, s: seq<T>, key: T -> int): (r: seq<T>)
    requires NewestFirst(s, key)
    ensures NewestFirst(r, key)
    ensures multiset(r) == multiset(s) + multiset{x}
  {
    if |s| == 0 then [x]
    else if key(s[0]) <= key(x) then [x] + s
    else
      var rest := Insert(x, s[1..], key);
      assert s == [s[0]] + s[1..];
      assert forall k :: 0 <= k < |rest| ==> key(s[0]) >= key(rest[k]) by {
        forall k | 0 <= k < |rest| ensures key(s[0]) >= key(rest[k]) {
          assert rest[k] in multiset(rest);
          assert rest[k] == x || rest[k] in multiset(s[1..]);
        }
      }
      [s[0]] + rest
  }

  /** The newest-first ordering of the listings, written as an insertion sort on the key. */
  function SortNewestFirst<T>(s: seq<T>, key: T -> int): (r: seq<T>)
    ensures NewestFirst(r, key)
    ensures multiset(r) == multiset(s)
  {
    if |s| == 0 then []
    else
      assert s == [s[0]] + s[1..];
      Insert(s[0], SortNewestFirst(s[1..], key), key)
  }

  /** The rows a listing selects: the elements satisfying `p`. */
  function Where<T(!new)>(s: seq<T>, p: T -> bool): (r: seq<T>)
    ensures forall x :: multiset(r)[x] == if p(x) then multiset(s)[x] else 0
  {
    if |s| == 0 then []
    else
      assert s == [s[0]] + s[1..];
      if p(s[0]) then [s[0]] + Where(s[1..], p) else Where(s[1..], p)
  }

  /** The columns a listing selects, applied row by row. */
  function Project<T, U>(s: seq<T>, f: T -> U): (r: seq<U>)
    ensures |r| == |s|
    ensures forall k :: 0 <= k < |r| ==> r[k] == f(s[k])
  {
    if |s| == 0 then [] else [f(s[0])] + Project(s[1..], f)
  }

  /** Projecting a concatenation projects each part. */
  lemma ProjectAppend<T, U>(a: seq<T>, b: seq<T>, f: T -> U)
    ensures Project(a + b, f) == Project(a, f) + Project(b, f)
  {
    assert forall k :: 0 <= k < |a + b| ==> (a + b)[k] == if k < |a| then a[k] else b[k - |a|];
  }

  /** Taking the j-th row out of a table takes its projection out of the projected rows. */
  lemma ProjectRemove<T, U>(s: seq<T>, j: nat, f: T -> U)
    requires j < |s|
    ensures multiset(Project(s, f)) == multiset{f(s[j])} + multiset(Project(s[..j] + s[j + 1..], f))
  {
    var front, back := s[..j], s[j + 1..];
    assert s[j..] == [s[j]] + back;
    assert s == front + s[j..];
    assert s == front + [s[j]] + back;
    ProjectAppend(front + [s[j]], back, f);
    ProjectAppend(front, [s[j]], f);
    ProjectAppend(front, back, f);
    var pf, pb := Project(front, f), Project(back, f);
    assert Project([s[j]], f) == [f(s[j])];
    assert Project(s, f) == pf + [f(s[j])] + pb;
    assert multiset(Project(s, f)) == multiset(pf) + multiset{f(s[j])} + multiset(pb);
    assert multiset(Project(front + back, f)) == multiset(pf) + multiset(pb);
  }

  /** The first element of `a` sits somewhere in its permutation `b`, and the rest of `a`
      is a permutation of `b` without it. */
  lemma MatchFirst<T>(a: seq<T>, b: seq<T>) returns (j: nat)
    requires |a| > 0 && multiset(a) == multiset(b)
    ensures j < |b| && b[j] == a[0]
    ensures multiset(a[1..]) == multiset(b[..j] + b[j + 1..])
  {
    assert a[0] in multiset(b);
    j :| 0 <= j < |b| && b[j] == a[0];
    var front, back := b[..j], b[j + 1..];
    assert b == front + [a[0]] + back;
    assert a == [a[0]] + a[1..];
    calc {
      multiset(a[1..]);
      multiset(a) - multiset{a[0]};
      multiset(b) - multiset{a[0]};
      multiset(front) + multiset(back);
      multiset(front + back);
    }
  }

  /** Reordering the rows reorders their projections: projecting a permutation of a table
      gives a permutation of the projected table. */
  lemma {:induction false} ProjectPermute<T, U>(a: seq<T>, b: seq<T>, f: T -> U)
    requires multiset(a) == multiset(b)
    ensures multiset(Project(a, f)) == multiset(Project(b, f))
    decreases |a|
  {
    if |a| == 0 {
      assert |b| == |multiset(b)| == 0;
    } else {
      var j := MatchFirst(a, b);
      ProjectPermute(a[1..], b[..j] + b[j + 1..], f);
      ProjectRemove(b, j, f);
      ProjectRemove(a, 0, f);
      assert a[..0] + a[1..] == a[1..];
    }
  }

  function ServiceCreatedAt(s: Service): int { s.createdAt }

  /** `GET /services`: every booking, newest first. */
  function AllServices(services: seq<Service>): (r: seq<Service>)
    ensures NewestFirst(r, ServiceCreatedAt)
    ensures multiset(r) == multiset(services)
  {
    SortNewestFirst(services, ServiceCreatedAt)
  }

  /** The side of a booking a listing selects on: its client or its caretaker. */
  datatype Party = Client | Caretaker

  function PartyId(s: Service, party: Party): int
  {
    match party
    case Client => s.userId
    case Caretaker => s.adminId
  }

  /** `GET /services/user/:userId` (party Client) and `GET /services/admin/:adminId`
      (party Caretaker): the bookings of that user on that side, newest first. */
  function ServicesOf(services: seq<Service>, party: Party, id: int): (r: seq<Service>)
    ensures NewestFirst(r, ServiceCreatedAt)
    ensures forall x :: multiset(r)[x] == if PartyId(x, party) == id then multiset(services)[x] else 0
  {
    SortNewestFirst(Where(services, (s: Service) => PartyId(s, party) == id), ServiceCreatedAt)
  }
}
