/** Shared vocabulary of the backend: optional values, the HTTP-style errors the
    controllers and services throw, the three kinds of user and the JWT payload
    that identifies a caller. */
module Common {

  datatype Option<T> = None | Some(value: T)

  /** The NestJS exception classes the core throws, and the 500 answer to
      an uncaught one. */
  datatype Status = NotFound | Forbidden | BadRequest | Conflict | Unauthorized | Internal

  datatype Error = Error(status: Status, message: string)

  /** What Nest answers for an exception the code does not catch, such as a
      unique-constraint or missing-record error from the database. */
  const InternalError := Error(Internal, "Internal server error")

  /** A route or service call either returns a value or throws an `Error`. */
  datatype Result<T> = Ok(value: T) | Err(error: Error)

  /** Identifiers (cuid strings in the database, `sub` in a JWT). */
  type Id = string

  /** The `type` claim of a JWT: which table the caller belongs to. */
  datatype Role = Consumer | Owner | Admin

  function RoleName(r: Role): string
  {
    match r
    case Consumer => "consumer"
    case Owner => "owner"
    case Admin => "admin"
  }

  /** Milliseconds in an hour and in a day (`Date` arithmetic). */
  const HOUR_MS := 60 * 60 * 1000
  const DAY_MS := 24 * HOUR_MS

  /** The decoded JWT payload attached to a request (`req.user`) or a socket
      (`client.user`); `role` is the admin role, present on admin tokens only. */
  datatype Payload = Payload(sub: Id, email: string, userType: Role, role: Option<string>)

  /** Configuration lookup with a default, as `configService.get(key, dflt)`. */
  function ConfigGet(config: map<string, string>, key: string, dflt: string): (v: string)
    ensures key in config ==> v == config[key]
    ensures key !in config ==> v == dflt
  {
    if key in config then config[key] else dflt
  }

  /** Position of the first element satisfying `p` (Prisma's `findFirst` and,
      on a unique key, `findUnique`, over a table kept in insertion order). */
  function Find<T>(s: seq<T>, p: T -> bool): (r: Option<nat>)
    ensures r.Some? ==> r.value < |s| && p(s[r.value])
    ensures r.Some? ==> forall j :: 0 <= j < r.value ==> !p(s[j])
    ensures r.None? <==> forall j :: 0 <= j < |s| ==> !p(s[j])
  {
    if s == [] then None
    else if p(s[0]) then Some(0)
    else match Find(s[1..], p)
      case None => None
      case Some(k) => Some(k + 1)
  }

  /** Number of elements satisfying `p` (Prisma's `count` with a `where`). */
  function Count<T>(s: seq<T>, p: T -> bool): (n: nat)
    ensures n <= |s|
  {
    if s == [] then 0 else (if p(s[0]) then 1 else 0) + Count(s[1..], p)
  }

  /** The elements satisfying `p`, in order (`findMany` with a `where`). */
  function Filter<T>(s: seq<T>, p: T -> bool): (r: seq<T>)
    ensures |r| == Count(s, p)
    ensures forall x :: x in r ==> x in s && p(x)
    ensures forall i :: 0 <= i < |s| && p(s[i]) ==> s[i] in r
  {
    if s == [] then []
    else if p(s[0]) then [s[0]] + Filter(s[1..], p)
    else Filter(s[1..], p)
  }

  lemma {:induction false} FilterAppend<T>(s: seq<T>, t: seq<T>, p: T -> bool)
    ensures Filter(s + t, p) == Filter(s, p) + Filter(t, p)
    ensures Count(s + t, p) == Count(s, p) + Count(t, p)
  {
    if s != [] {
      assert (s + t)[1..] == s[1..] + t;
      FilterAppend(s[1..], t, p);
    } else {
      assert s + t == t;
    }
  }

  /** Every element satisfies exactly one of `p` and its negation. */
  lemma {:induction false} CountSplit<T>(s: seq<T>, p: T -> bool, q: T -> bool)
    requires forall x :: q(x) == !p(x)
    ensures Count(s, p) + Count(s, q) == |s|
  {
    if s != [] {
      CountSplit(s[1..], p, q);
    }
  }

  /** Counting with a stronger predicate never counts more. */
  lemma {:induction false} CountMonotone<T>(s: seq<T>, p: T -> bool, q: T -> bool)
    requires forall x :: p(x) ==> q(x)
    ensures Count(s, p) <= Count(s, q)
  {
    if s != [] {
      CountMonotone(s[1..], p, q);
    }
  }

  /** Nothing is counted exactly when no element satisfies `p`. */
  lemma {:induction false} CountZero<T>(s: seq<T>, p: T -> bool)
    ensures Count(s, p) == 0 <==> forall i :: 0 <= i < |s| ==> !p(s[i])
  {
    if s != [] {
      CountZero(s[1..], p);
      assert forall i :: 1 <= i < |s| ==> s[i] == s[1..][i - 1];
    }
  }

  /** Two predicates that never hold together count no more than the
      sequence has elements between them. */
  lemma {:induction false} CountDisjoint<T>(s: seq<T>, p: T -> bool, q: T -> bool)
    requires forall x :: !(p(x) && q(x))
    ensures Count(s, p) + Count(s, q) <= |s|
  {
    if s != [] {
      CountDisjoint(s[1..], p, q);
    }
  }

  /** When every element satisfies one of two exclusive predicates, their
      counts add up to the length. */
  lemma {:induction false} CountPartition<T>(s: seq<T>, p: T -> bool, q: T -> bool)
    requires forall x :: !(p(x) && q(x))
    requires forall i :: 0 <= i < |s| ==> p(s[i]) || q(s[i])
    ensures Count(s, p) + Count(s, q) == |s|
  {
    if s != [] {
      assert forall i :: 0 <= i < |s[1..]| ==> s[1..][i] == s[i + 1];
      CountPartition(s[1..], p, q);
    }
  }

  /** The elements in the opposite order (`orderBy: 'desc'` over a table
      kept in ascending order). */
  function Reverse<T>(s: seq<T>): (r: seq<T>)
    ensures |r| == |s|
    ensures forall i :: 0 <= i < |s| ==> r[i] == s[|s| - 1 - i]
  {
    seq(|s|, i requires 0 <= i < |s| => s[|s| - 1 - i])
  }

  /** Counting two disjoint conditions separately counts their union. */
  lemma {:induction false} CountUnion<T>(s: seq<T>, p: T -> bool, q: T -> bool, r: T -> bool)
    requires forall x :: !(p(x) && q(x))
    requires forall x :: r(x) == (p(x) || q(x))
    ensures Count(s, p) + Count(s, q) == Count(s, r)
  {
    if s != [] {
      CountUnion(s[1..], p, q, r);
    }
  }

  lemma SubsetCard<T>(a: set<T>, b: set<T>)
    requires a <= b
    ensures |a| <= |b|
  {
    assert b == a + (b - a);
  }



  /** Filtering by two predicates that agree everywhere gives one result. */
  lemma {:induction false} FilterSame<T>(s: seq<T>, p: T -> bool, q: T -> bool)
    requires forall x :: p(x) == q(x)
    ensures Filter(s, p) == Filter(s, q)
  {
    if s != [] {
      FilterSame(s[1..], p, q);
    }
  }

  /** Reversing keeps the elements. */
  lemma ReverseSameElements<T>(s: seq<T>)
    ensures forall x :: x in Reverse(s) <==> x in s
  {
    forall x | x in s ensures x in Reverse(s) {
      var i :| 0 <= i < |s| && s[i] == x;
      assert Reverse(s)[|s| - 1 - i] == x;
    }
  }
}
