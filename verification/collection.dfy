/**
  The collection controller of the home page (src/app/page.tsx): the ordered
  list of prompt cards and the `nextId` counter, with `addPrompt`,
  `updatePrompt` and `deletePrompt`.
*/
module Collection {
  import opened Wrappers
  import opened Types

  /** The page's state: the `prompts` list and the current value of the `nextId` ref. */
  datatype Store = Store(prompts: seq<Prompt>, nextId: int)

  /** The text of the one seeded card. */
  const SeedText: string :=
    "Write a short, upbeat marketing slogan for a new brand of coffee called \"Morning Star\"."

  /** `initialPrompts`. The literal carries neither `model` nor `evaluationCriteria`. */
  const InitialPrompts: seq<Prompt> := [Prompt(1, SeedText, None, None, None)]

  /** No two cards share an id. */
  ghost predicate IdsDistinct(ps: seq<Prompt>) {
    forall i, j :: 0 <= i < j < |ps| ==> ps[i].id != ps[j].id
  }

  /** Every id was issued before the counter's current value. */
  ghost predicate IdsBelow(ps: seq<Prompt>, bound: int) {
    forall i :: 0 <= i < |ps| ==> ps[i].id < bound
  }

  /** The id invariant the page keeps. */
  ghost predicate Valid(s: Store) {
    IdsDistinct(s.prompts) && IdsBelow(s.prompts, s.nextId)
  }

  predicate HasId(ps: seq<Prompt>, id: int) {
    exists i :: 0 <= i < |ps| && ps[i].id == id
  }

  /** The page's first state: the seeded card and `nextId = initialPrompts.length + 1`. */
  function Initial(): (s: Store)
    ensures Valid(s)
    ensures |s.prompts| == 1 && s.prompts[0].result.None? && s.prompts[0].model.None?
    ensures s.nextId == 2 && s.prompts[0].id == 1
  {
    Store(InitialPrompts, |InitialPrompts| + 1)
  }

  /** The blank card `addPrompt` appends. */
  function BlankPrompt(id: int): Prompt {
    Prompt(id, "", None, None, None)
  }

  /** `addPrompt`: append a blank card carrying the counter's value, then bump the counter. */
  function AddPrompt(s: Store): (s': Store)
    ensures |s'.prompts| == |s.prompts| + 1
    ensures s'.prompts[..|s.prompts|] == s.prompts
    ensures var p := s'.prompts[|s.prompts|];
      p.id == s.nextId && p.prompt == "" && p.result.None? && p.model.None? && p.evaluationCriteria.None?
    ensures s'.nextId == s.nextId + 1
    ensures Valid(s) ==> Valid(s') && !HasId(s.prompts, s.nextId)
  {
    Store(s.prompts + [BlankPrompt(s.nextId)], s.nextId + 1)
  }

  /** `prev.map(p => p.id === id ? { ...p, ...data } : p)`. */
  function UpdateAll(ps: seq<Prompt>, id: int, d: Patch): (r: seq<Prompt>)
    ensures |r| == |ps|
    ensures forall i :: 0 <= i < |ps| && ps[i].id != id ==> r[i] == ps[i]
    ensures forall i :: 0 <= i < |ps| && ps[i].id == id ==> r[i] == Merge(ps[i], d)
  {
    if ps == [] then []
    else [if ps[0].id == id then Merge(ps[0], d) else ps[0]] + UpdateAll(ps[1..], id, d)
  }

  /** `updatePrompt(id, data)`. */
  function UpdatePrompt(s: Store, id: int, d: Patch): (s': Store)
    ensures s'.nextId == s.nextId
    ensures |s'.prompts| == |s.prompts|
    ensures forall i :: 0 <= i < |s.prompts| && s.prompts[i].id != id ==>
      s'.prompts[i] == s.prompts[i]
    ensures forall i :: 0 <= i < |s.prompts| && s.prompts[i].id == id ==>
      s'.prompts[i] == Merge(s.prompts[i], d)
    ensures Valid(s) && d.id.None? ==> Valid(s')
  {
    Store(UpdateAll(s.prompts, id, d), s.nextId)
  }

  /** `prev.filter(p => p.id !== id)`. */
  function RemoveAll(ps: seq<Prompt>, id: int): seq<Prompt> {
    if ps == [] then []
    else if ps[0].id != id then [ps[0]] + RemoveAll(ps[1..], id)
    else RemoveAll(ps[1..], id)
  }

  /** The filter keeps exactly the cards whose id differs. */
  lemma {:induction false} RemoveAllMembers(ps: seq<Prompt>, id: int)
    ensures forall p :: p in RemoveAll(ps, id) <==> p in ps && p.id != id
  {
    if ps != [] {
      RemoveAllMembers(ps[1..], id);
      assert forall p :: p in ps <==> p == ps[0] || p in ps[1..];
    }
  }

  /** Filtering keeps ids distinct. */
  lemma {:induction false} RemoveAllDistinct(ps: seq<Prompt>, id: int)
    ensures IdsDistinct(ps) ==> IdsDistinct(RemoveAll(ps, id))
  {
    if ps != [] && IdsDistinct(ps) {
      var tail := ps[1..];
      assert IdsDistinct(tail) by {
        forall i, j | 0 <= i < j < |tail| ensures tail[i].id != tail[j].id {
          assert tail[i] == ps[i + 1] && tail[j] == ps[j + 1];
        }
      }
      RemoveAllDistinct(tail, id);
      if ps[0].id != id {
        var r := RemoveAll(tail, id);
        RemoveAllMembers(tail, id);
        forall k | 0 <= k < |r| ensures r[k].id != ps[0].id {
          assert r[k] in tail;
          var j :| 0 <= j < |tail| && tail[j] == r[k];
          assert tail[j] == ps[j + 1];
        }
        var out := [ps[0]] + r;
        forall i, j | 0 <= i < j < |out| ensures out[i].id != out[j].id {
          if i == 0 {
            assert out[j] == r[j - 1];
          } else {
            assert out[i] == r[i - 1] && out[j] == r[j - 1];
          }
        }
      }
    }
  }

  /** `deletePrompt(id)`. */
  function DeletePrompt(s: Store, id: int): (s': Store)
    ensures s'.nextId == s.nextId
    ensures forall p :: p in s'.prompts <==> p in s.prompts && p.id != id
    ensures !HasId(s'.prompts, id)
    ensures Valid(s) ==> Valid(s')
  {
    RemoveAllMembers(s.prompts, id);
    RemoveAllDistinct(s.prompts, id);
    Store(RemoveAll(s.prompts, id), s.nextId)
  }

  /** Updating an id no card carries changes nothing: a result that arrives for a
      deleted card is dropped. */
  lemma UpdateAbsentIsNoOp(s: Store, id: int, d: Patch)
    requires !HasId(s.prompts, id)
    ensures UpdatePrompt(s, id, d) == s
  {
  }

  /** Deleting a card and then delivering its late update leaves the state
      exactly as the delete did; the id is not reintroduced. */
  lemma LateUpdateAfterDelete(s: Store, id: int, d: Patch)
    ensures UpdatePrompt(DeletePrompt(s, id), id, d) == DeletePrompt(s, id)
    ensures !HasId(UpdatePrompt(DeletePrompt(s, id), id, d).prompts, id)
  {
  }

  /** Filtering distributes over concatenation, so the survivors keep their relative order. */
  lemma {:induction false} RemoveAllAppend(a: seq<Prompt>, b: seq<Prompt>, id: int)
    ensures RemoveAll(a + b, id) == RemoveAll(a, id) + RemoveAll(b, id)
  {
    if a == [] {
      assert a + b == b;
    } else {
      var ab := a + b;
      assert ab[0] == a[0];
      assert ab[1..] == a[1..] + b;
      RemoveAllAppend(a[1..], b, id);
      var head := if a[0].id != id then [a[0]] else [];
      assert RemoveAll(ab, id) == head + RemoveAll(a[1..] + b, id);
      assert RemoveAll(a, id) == head + RemoveAll(a[1..], id);
    }
  }

  /** Deleting twice is deleting once. */
  lemma {:induction false} RemoveAllIdempotent(ps: seq<Prompt>, id: int)
    ensures RemoveAll(RemoveAll(ps, id), id) == RemoveAll(ps, id)
  {
    if ps != [] {
      RemoveAllIdempotent(ps[1..], id);
      if ps[0].id != id {
        var r := RemoveAll(ps[1..], id);
        assert ([ps[0]] + r)[1..] == r;
      }
    }
  }

  lemma DeleteIdempotent(s: Store, id: int)
    ensures DeletePrompt(DeletePrompt(s, id), id) == DeletePrompt(s, id)
  {
    RemoveAllIdempotent(s.prompts, id);
  }

  /** The `id` key is why update preserves the invariant only for patches without
      one: spreading `{ id: 2 }` onto card 1 of a store holding cards 1 and 2
      makes the ids collide. */
  lemma UpdateWithIdCanBreakValid()
    ensures var s := AddPrompt(Initial());
      && Valid(s)
      && !Valid(UpdatePrompt(s, 1, EmptyPatch.(id := Some(2))))
  {
  }

  /** The user actions that change the list. Edits from a card are `Update`s. */
  datatype Action = Add | Update(id: int, patch: Patch) | Delete(id: int)

  function Step(s: Store, a: Action): Store {
    match a
    case Add => AddPrompt(s)
    case Update(id, d) => UpdatePrompt(s, id, d)
    case Delete(id) => DeletePrompt(s, id)
  }

  /** Replays a session of actions. */
  function Replay(s: Store, actions: seq<Action>): Store
    decreases |actions|
  {
    if actions == [] then s else Replay(Step(s, actions[0]), actions[1..])
  }

  /** None of the session's updates rewrites an id (the card only ever sends
      `result`, `prompt`, `model` and `evaluationCriteria`). */
  predicate NoIdPatches(actions: seq<Action>) {
    forall k :: 0 <= k < |actions| && actions[k].Update? ==> actions[k].patch.id.None?
  }

  /** The ids the session's `Add`s hand out, in order. */
  function IssuedIds(s: Store, actions: seq<Action>): seq<int>
    decreases |actions|
  {
    if actions == [] then []
    else (if actions[0].Add? then [s.nextId] else []) + IssuedIds(Step(s, actions[0]), actions[1..])
  }

  /** Over any session, whatever its patches: the counter never goes down, and
      every issued id lies between the counter's old and new value. */
  lemma {:induction false} CounterBounds(s: Store, actions: seq<Action>)
    ensures s.nextId <= Replay(s, actions).nextId
    ensures forall k :: 0 <= k < |IssuedIds(s, actions)| ==>
      s.nextId <= IssuedIds(s, actions)[k] < Replay(s, actions).nextId
    decreases |actions|
  {
    if actions != [] {
      CounterBounds(Step(s, actions[0]), actions[1..]);
    }
  }

  /** Over any session: the invariant is kept, the counter never goes down, and
      every issued id lies between the counter's old and new value. */
  lemma {:induction false} ReplayKeepsValid(s: Store, actions: seq<Action>)
    requires Valid(s)
    requires NoIdPatches(actions)
    ensures Valid(Replay(s, actions))
    ensures s.nextId <= Replay(s, actions).nextId
    ensures forall k :: 0 <= k < |IssuedIds(s, actions)| ==>
      s.nextId <= IssuedIds(s, actions)[k] < Replay(s, actions).nextId
    decreases |actions|
  {
    CounterBounds(s, actions);
    if actions != [] {
      var t := Step(s, actions[0]);
      assert NoIdPatches(actions[1..]) by {
        forall k | 0 <= k < |actions[1..]| && actions[1..][k].Update?
          ensures actions[1..][k].patch.id.None?
        {
          assert actions[1..][k] == actions[k + 1];
        }
      }
      ReplayKeepsValid(t, actions[1..]);
    }
  }

  /** Ids are never reused within a session: the issued ids strictly increase,
      so no two `Add`s hand out the same id, even after deletions. */
  lemma {:induction false} IssuedIdsIncrease(s: Store, actions: seq<Action>)
    ensures forall i, j :: 0 <= i < j < |IssuedIds(s, actions)| ==>
      IssuedIds(s, actions)[i] < IssuedIds(s, actions)[j]
    decreases |actions|
  {
    if actions != [] {
      var t := Step(s, actions[0]);
      IssuedIdsIncrease(t, actions[1..]);
      CounterBounds(t, actions[1..]);
      if actions[0].Add? {
        assert t.nextId == s.nextId + 1;
      }
    }
  }
}
