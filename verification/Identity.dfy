/** What a validated token lets a connection join. */
module Identity {
  import opened Options

  datatype Principal = Principal(subject: string, rooms: seq<string>)

  predicate Covers(pattern: string, sessionId: string) {
    if pattern != "" && pattern[|pattern| - 1] == '*' then pattern[..|pattern| - 1] <= sessionId
    else pattern == sessionId
  }

  predicate SomeCovers(patterns: seq<string>, sessionId: string) {
    patterns != [] && (Covers(patterns[0], sessionId) || SomeCovers(patterns[1..], sessionId))
  }

  predicate AllowsRoom(p: Option<Principal>, sessionId: string) {
    if p.None? || p.value.rooms == [] then true
    else sessionId != "" && SomeCovers(p.value.rooms, sessionId)
  }

  /** Without a token, or with one that names no rooms, every session may be joined, the empty id
      included. Any other token opens exactly the sessions its entries name, whole or by a prefix
      ending in a star, and never the empty session id. */
  lemma AllowsRoomMeaning(principal: Option<Principal>, sessionId: string)
    ensures AllowsRoom(principal, sessionId) <==>
            || principal.None? || principal.value.rooms == []
            || (sessionId != "" && exists r :: r in principal.value.rooms && Opens(r, sessionId))
  {
    if principal.Some? && principal.value.rooms != [] {
      RestrictedMeaning(principal.value, sessionId);
    }
  }

  lemma RestrictedMeaning(p: Principal, sessionId: string)
    requires p.rooms != []
    ensures AllowsRoom(Some(p), sessionId) <==>
            sessionId != "" && exists r :: r in p.rooms && Opens(r, sessionId)
  {
    SomeCoversMeaning(p.rooms, sessionId);
    forall r: string
      ensures Covers(r, sessionId) <==> Opens(r, sessionId)
    {
      if r != "" && r[|r| - 1] == '*' {
        assert r == r[..|r| - 1] + "*";
      }
      assert forall prefix :: r == prefix + "*" ==> r != "" && r[|r| - 1] == '*' && r[..|r| - 1] == prefix;
    }
  }

  /** An entry opens a session by naming it, or by a prefix followed by a star. */
  ghost predicate Opens(entry: string, sessionId: string) {
    || (entry == sessionId && (entry == "" || entry[|entry| - 1] != '*'))
    || (exists prefix :: entry == prefix + "*" && prefix <= sessionId)
  }

  lemma {:induction false} SomeCoversMeaning(patterns: seq<string>, sessionId: string)
    ensures SomeCovers(patterns, sessionId) <==> exists r :: r in patterns && Covers(r, sessionId)
  {
    if patterns != [] {
      SomeCoversMeaning(patterns[1..], sessionId);
      assert forall r :: r in patterns <==> r == patterns[0] || r in patterns[1..];
    }
  }
}
