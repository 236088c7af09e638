/**
 * The collection reducer: the total transition function of the collection
 * slice of the application state.
 */
module Reducer {
  import opened CollectionTypes

  /** The state before any action: no collections. */
  function InitialState(): (s: CollectionState)
    ensures |s.collections| == 0
  {
    CollectionState([])
  }

  /**
   * The entry `c` after an UPDATE_COLLECTION for address `a`: its logo is
   * replaced when its address is `a`, and it is left alone otherwise.
   */
  function UpdatedEntry(c: Collection, a: string, uri: string): (e: Collection)
  {
    if c.address == a then c.(logo_uri := uri) else c
  }

  /**
   * The list after an UPDATE_COLLECTION for address `a`: every entry visited
   * in order, each one updated by UpdatedEntry.
   */
  function UpdateLogos(cs: seq<Collection>, a: string, uri: string): (r: seq<Collection>)
    ensures |r| == |cs|
  {
    if cs == [] then [] else [UpdatedEntry(cs[0], a, uri)] + UpdateLogos(cs[1..], a, uri)
  }

  /**
   * The reducer as a function of the old state and the action. GET_COLLECTIONS
   * takes the payload's length, ADD_NEW_COLLECTION adds one entry,
   * UPDATE_COLLECTION keeps the length, and every other action type leaves
   * the state as it was.
   */
  function Reduce(state: CollectionState, action: Action): (next: CollectionState)
    ensures action.GetCollections? ==> |next.collections| == |action.payload.collections|
    ensures action.AddNewCollection? ==> |next.collections| == |state.collections| + 1
    ensures action.UpdateCollection? ==> |next.collections| == |state.collections|
    ensures action.GetMintPrice? || action.Unknown? ==> next == state
  {
    match action
    case GetCollections(payload) => payload
    case AddNewCollection(c) => state.(collections := state.collections + [c])
    case UpdateCollection(a, uri) => state.(collections := UpdateLogos(state.collections, a, uri))
    case GetMintPrice => state
    case Unknown(_) => state
  }

  /**
   * The state after the actions `acts`, applied in order from `state`. A log
   * holding no GET_COLLECTIONS and no ADD_NEW_COLLECTION keeps the number of
   * entries.
   */
  function ReduceAll(state: CollectionState, acts: seq<Action>): (s: CollectionState)
    ensures (forall i :: 0 <= i < |acts| ==> !acts[i].GetCollections? && !acts[i].AddNewCollection?)
            ==> |s.collections| == |state.collections|
    decreases acts
  {
    if acts == [] then state else ReduceAll(Reduce(state, acts[0]), acts[1..])
  }

  /**
   * The reducer as the store runs it. GET_COLLECTIONS and ADD_NEW_COLLECTION
   * build a new state; UPDATE_COLLECTION walks the list with an index and
   * replaces the logo of every entry whose address matches.
   */
  method CollectionReducer(state: CollectionState, action: Action) returns (next: CollectionState)
    ensures next == Reduce(state, action)
  {
    match action {
      case GetCollections(payload) =>
        next := payload;
      case AddNewCollection(c) =>
        next := state.(collections := state.collections + [c]);
      case UpdateCollection(a, uri) =>
        var cs := state.collections;
        var i := 0;
        while i < |cs|
          invariant 0 <= i <= |cs| == |state.collections|
          invariant cs[..i] == UpdateLogos(state.collections[..i], a, uri)
          invariant cs[i..] == state.collections[i..]
        {
          if cs[i].address == a {
            cs := cs[i := cs[i].(logo_uri := uri)];
          }
          assert cs[i + 1..] == state.collections[i + 1..];
          UpdateLogosSnoc(state.collections[..i], state.collections[i], a, uri);
          assert state.collections[..i + 1] == state.collections[..i] + [state.collections[i]];
          i := i + 1;
        }
        assert cs == cs[..i];
        assert state.collections == state.collections[..i];
        next := state.(collections := cs);
      case GetMintPrice =>
        next := state;
      case Unknown(_) =>
        next := state;
    }
  }

  /** Updating a list extended by one entry updates the list and then that entry. */
  lemma {:induction false} UpdateLogosSnoc(cs: seq<Collection>, c: Collection, a: string, uri: string)
    ensures UpdateLogos(cs + [c], a, uri) == UpdateLogos(cs, a, uri) + [UpdatedEntry(c, a, uri)]
  {
    if cs == [] {
      assert cs + [c] == [c];
    } else {
      assert (cs + [c])[1..] == cs[1..] + [c];
      UpdateLogosSnoc(cs[1..], c, a, uri);
    }
  }

  /**
   * UPDATE_COLLECTION keeps the length, sets the logo of EVERY entry whose
   * address matches (not only the first), and leaves every other entry, and
   * every field other than the logo, as it was.
   */
  lemma {:induction false} UpdateLogosAt(cs: seq<Collection>, a: string, uri: string, i: nat)
    requires i < |cs|
    ensures |UpdateLogos(cs, a, uri)| == |cs|
    ensures cs[i].address == a ==> UpdateLogos(cs, a, uri)[i] == cs[i].(logo_uri := uri)
    ensures cs[i].address != a ==> UpdateLogos(cs, a, uri)[i] == cs[i]
  {
    if i > 0 {
      UpdateLogosAt(cs[1..], a, uri, i - 1);
    }
  }

  /** The same fact as UpdateLogosAt, field by field. */
  lemma UpdateLogosFields(cs: seq<Collection>, a: string, uri: string, i: nat)
    requires i < |cs|
    ensures var e := UpdateLogos(cs, a, uri)[i];
      && e.title == cs[i].title && e.symbol == cs[i].symbol
      && e.base_uri == cs[i].base_uri && e.mint_price == cs[i].mint_price
      && e.max_supply == cs[i].max_supply && e.address == cs[i].address
      && e.owner == cs[i].owner
      && e.logo_uri == (if cs[i].address == a then uri else cs[i].logo_uri)
  {
    UpdateLogosAt(cs, a, uri, i);
  }

  /** An UPDATE_COLLECTION for an address no entry has changes nothing. */
  lemma {:induction false} UpdateAbsentIsNoOp(s: CollectionState, a: string, uri: string)
    requires !HasAddress(s.collections, a)
    ensures Reduce(s, UpdateCollection(a, uri)) == s
  {
    UpdateLogosIdentity(s.collections, a, uri);
  }

  lemma {:induction false} UpdateLogosIdentity(cs: seq<Collection>, a: string, uri: string)
    requires !HasAddress(cs, a)
    ensures UpdateLogos(cs, a, uri) == cs
  {
    if cs != [] {
      assert cs[0].address != a;
      assert !HasAddress(cs[1..], a) by {
        forall i | 0 <= i < |cs[1..]| ensures cs[1..][i].address != a {
          assert cs[1..][i] == cs[i + 1];
        }
      }
      UpdateLogosIdentity(cs[1..], a, uri);
    }
  }

  /** Applying the same UPDATE_COLLECTION twice is the same as applying it once. */
  lemma {:induction false} UpdateIdempotent(s: CollectionState, a: string, uri: string)
    ensures Reduce(Reduce(s, UpdateCollection(a, uri)), UpdateCollection(a, uri))
         == Reduce(s, UpdateCollection(a, uri))
  {
    UpdateLogosIdempotent(s.collections, a, uri);
  }

  lemma {:induction false} UpdateLogosIdempotent(cs: seq<Collection>, a: string, uri: string)
    ensures UpdateLogos(UpdateLogos(cs, a, uri), a, uri) == UpdateLogos(cs, a, uri)
  {
    if cs != [] {
      UpdateLogosIdempotent(cs[1..], a, uri);
    }
  }

  /**
   * After UPDATE_COLLECTION the entries with address `a` are exactly those
   * before, and each of them carries the new logo.
   */
  lemma UpdateSetsEveryMatch(s: CollectionState, a: string, uri: string)
    ensures var r := Reduce(s, UpdateCollection(a, uri)).collections;
      && |r| == |s.collections|
      && (forall i :: 0 <= i < |r| ==> (r[i].address == a <==> s.collections[i].address == a))
      && (forall i :: 0 <= i < |r| && r[i].address == a ==> r[i].logo_uri == uri)
  {
    forall i | 0 <= i < |s.collections| {
      UpdateLogosAt(s.collections, a, uri, i);
    }
  }

  /**
   * ADD_NEW_COLLECTION appends: one more entry, the old ones as the prefix,
   * the new one last.
   */
  lemma AddAppends(s: CollectionState, c: Collection)
    ensures var r := Reduce(s, AddNewCollection(c)).collections;
      |r| == |s.collections| + 1 && r[..|s.collections|] == s.collections && r[|s.collections|] == c
  {
  }

  /**
   * ADD_NEW_COLLECTION does not look for an entry with the same address: the
   * number of entries with that address always grows by one, so adding a
   * record whose address is already listed lists it twice.
   */
  lemma {:induction false} AddKeepsDuplicates(s: CollectionState, c: Collection)
    ensures CountAddress(Reduce(s, AddNewCollection(c)).collections, c.address)
         == CountAddress(s.collections, c.address) + 1
    ensures HasAddress(s.collections, c.address) ==>
              CountAddress(Reduce(s, AddNewCollection(c)).collections, c.address) >= 2
  {
    var cs := s.collections + [c];
    assert cs[..|cs| - 1] == s.collections;
    if HasAddress(s.collections, c.address) {
      CountPositive(s.collections, c.address);
    }
  }

  /** Some entry has address `a` exactly when the count for `a` is positive. */
  lemma {:induction false} CountPositive(cs: seq<Collection>, a: string)
    ensures CountAddress(cs, a) > 0 <==> HasAddress(cs, a)
  {
    if cs != [] {
      var init := cs[..|cs| - 1];
      CountPositive(init, a);
      if HasAddress(init, a) {
        var i :| 0 <= i < |init| && init[i].address == a;
        assert cs[i] == init[i];
      }
      if HasAddress(cs, a) && cs[|cs| - 1].address != a {
        var i :| 0 <= i < |cs| && cs[i].address == a;
        assert init[i] == cs[i];
      }
    }
  }

  /** GET_COLLECTIONS discards the old list wholesale: the new state is the payload. */
  lemma GetReplaces(s: CollectionState, p: CollectionState)
    ensures Reduce(s, GetCollections(p)) == p
    ensures forall t :: Reduce(t, GetCollections(p)) == Reduce(s, GetCollections(p))
  {
  }

  /**
   * Every action type the reducer has no case for, GET_MINT_PRICE among them,
   * returns the state unchanged.
   */
  lemma UnhandledIsIdentity(s: CollectionState, kind: string)
    ensures Reduce(s, GetMintPrice) == s
    ensures Reduce(s, Unknown(kind)) == s
  {
  }

  /** Running a log extended by one action is one more reducer step. */
  lemma {:induction false} ReduceAllSnoc(s: CollectionState, acts: seq<Action>, a: Action)
    ensures ReduceAll(s, acts + [a]) == Reduce(ReduceAll(s, acts), a)
    decreases acts
  {
    if acts == [] {
      assert acts + [a] == [a];
    } else {
      assert (acts + [a])[1..] == acts[1..] + [a];
      ReduceAllSnoc(Reduce(s, acts[0]), acts[1..], a);
    }
  }

  /**
   * A log that ends with a GET_COLLECTIONS leaves exactly its payload, whatever
   * came before: an entry appended by ADD_NEW_COLLECTION and then followed by
   * a re-fetch is gone unless the backend lists it.
   */
  lemma {:induction false} LastGetWins(s: CollectionState, acts: seq<Action>, p: CollectionState)
    ensures ReduceAll(s, acts + [GetCollections(p)]) == p
  {
    ReduceAllSnoc(s, acts, GetCollections(p));
  }
}
