/** The actor that owns the frame tensors: entries and reservations share one capacity limit. */
module ObjectRegistry {
  import opened Prelude

  /** The token of the n-th put of one ingest process. */
  datatype Token = Token(client: nat, serial: nat)

  /** What the registry holds: the object behind each registered token, and the slots claimed ahead. */
  datatype Slots<Ref> = Slots(entries: map<Token, Ref>, reservations: set<Token>) {
    function Count(): nat { |entries.Keys| + |reservations| }

    ghost predicate Valid(limit: nat) { entries.Keys !! reservations && Count() <= limit }

    predicate Holds(token: Token) { token in entries || token in reservations }
  }

  function Reserve<Ref>(s: Slots<Ref>, token: Token, limit: nat): (Slots<Ref>, bool) {
    if s.Holds(token) then (s, true)
    else if s.Count() >= limit then (s, false)
    else (Slots(s.entries, s.reservations + {token}), true)
  }

  function Cancel<Ref>(s: Slots<Ref>, token: Token): (Slots<Ref>, bool) {
    (Slots(s.entries, s.reservations - {token}), token in s.reservations)
  }

  function Register<Ref>(s: Slots<Ref>, token: Token, ref: Ref, limit: nat): (Slots<Ref>, bool) {
    if token in s.entries then (Slots(s.entries, s.reservations - {token}), true)
    else if token !in s.reservations && s.Count() >= limit then (s, false)
    else (Slots(s.entries[token := ref], s.reservations - {token}), true)
  }

  /** The slots after a release, whether anything was removed, and the object that is freed. */
  function Release<Ref>(s: Slots<Ref>, token: Token): (Slots<Ref>, bool, Option<Ref>) {
    (Slots(s.entries - {token}, s.reservations - {token}), s.Holds(token),
     if token in s.entries then Some(s.entries[token]) else None)
  }

  /** A reservation is granted exactly when the token is known or a slot is free; only it is added. */
  lemma ReserveKeeps<Ref>(s: Slots<Ref>, token: Token, limit: nat)
    requires s.Valid(limit)
    ensures var (t, ok) := Reserve(s, token, limit);
      && t.Valid(limit) && (ok <==> s.Holds(token) || s.Count() < limit) && (ok <==> t.Holds(token))
      && (forall u :: u != token ==> t.Holds(u) == s.Holds(u))
  {
  }

  /** Registering a reserved token never fails and moves it: the count stays. */
  lemma RegisterKeeps<Ref>(s: Slots<Ref>, token: Token, ref: Ref, limit: nat)
    requires s.Valid(limit)
    ensures var (t, ok) := Register(s, token, ref, limit);
      && t.Valid(limit) && (ok <==> token in t.entries) && (s.Holds(token) ==> ok && t.Count() == s.Count())
      && (!ok ==> s.Count() == limit && t == s)
      && (forall u :: u != token ==> t.Holds(u) == s.Holds(u))
  {
    var t := Register(s, token, ref, limit).0;
    if token !in s.entries {
      assert s.entries[token := ref].Keys == s.entries.Keys + {token};
    } else {
      assert s.reservations - {token} == s.reservations;
    }
  }

  lemma ReleaseKeeps<Ref>(s: Slots<Ref>, token: Token, limit: nat)
    requires s.Valid(limit)
    ensures var (t, removed, freed) := Release(s, token);
      && t.Valid(limit) && !t.Holds(token) && (removed ==> t.Count() + 1 == s.Count()) && (!removed ==> t == s)
      && (forall u :: u != token ==> t.Holds(u) == s.Holds(u))
  {
    var t := Release(s, token).0;
    assert t.entries.Keys == s.entries.Keys - {token};
    if !s.Holds(token) {
      assert t.entries == s.entries && t.reservations == s.reservations;
    }
  }

  lemma CancelKeeps<Ref>(s: Slots<Ref>, token: Token, limit: nat)
    requires s.Valid(limit)
    ensures Cancel(s, token).0.Valid(limit)
    ensures token !in Cancel(s, token).0.reservations
    ensures forall u :: u != token ==> Cancel(s, token).0.Holds(u) == s.Holds(u)
  {
    SubsetSize(s.reservations - {token}, s.reservations);
  }

  /** `ObjectRegistryActor`. */
  class Registry<Ref> {
    var entries: map<Token, Ref>
    var reservations: set<Token>

    constructor ()
      ensures Contents() == Slots(map[], {})
    {
      entries, reservations := map[], {};
    }

    function Contents(): Slots<Ref>
      reads this
    {
      Slots(entries, reservations)
    }

    /** None stands for the capacity error. */
    method ReserveSlot(token: Token, maxObjects: nat) returns (r: Option<Token>)
      modifies this
      ensures Contents() == Reserve(old(Contents()), token, maxObjects).0
      ensures r == if Reserve(old(Contents()), token, maxObjects).1 then Some(token) else None
    {
      if token in entries || token in reservations {
        return Some(token);
      }
      if |entries.Keys| + |reservations| >= maxObjects {
        return None;
      }
      reservations := reservations + {token};
      r := Some(token);
    }

    method CancelReservation(token: Token) returns (removed: bool)
      modifies this
      ensures (Contents(), removed) == Cancel(old(Contents()), token)
    {
      if token !in reservations {
        assert reservations - {token} == reservations;
        return false;
      }
      reservations := reservations - {token};
      removed := true;
    }

    method RegisterObject(token: Token, ref: Ref, maxObjects: nat) returns (r: Option<Token>)
      modifies this
      ensures Contents() == Register(old(Contents()), token, ref, maxObjects).0
      ensures r == if Register(old(Contents()), token, ref, maxObjects).1 then Some(token) else None
    {
      if token in entries {
        reservations := reservations - {token};
        return Some(token);
      }
      if token !in reservations {
        if |entries.Keys| + |reservations| >= maxObjects {
          return None;
        }
      }
      reservations := reservations - {token};
      entries := entries[token := ref];
      r := Some(token);
    }

    method ReleaseObject(token: Token) returns (removed: bool, freed: Option<Ref>)
      modifies this
      ensures (Contents(), removed, freed) == Release(old(Contents()), token)
    {
      var reservationRemoved := token in reservations;
      reservations := reservations - {token};
      if token !in entries {
        assert entries - {token} == entries;
        return reservationRemoved, None;
      }
      freed := Some(entries[token]);
      entries := entries - {token};
      removed := true;
    }

    method CountObjects() returns (n: nat)
      ensures n == Contents().Count()
    {
      n := |entries.Keys| + |reservations|;
    }
  }
}
