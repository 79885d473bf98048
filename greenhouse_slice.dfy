/** The `greenhouses` slice of the global store: the last fetched list, the
    selected greenhouse and the loading/error flags, updated in place by its
    reducers. The async thunks' network calls are not modelled; what they
    settle with is the argument of the matching reducer. */
module GreenhouseSlice {
  import opened Js
  import opened Domain

  datatype Greenhouse = Greenhouse(
    id: int,
    name: string,
    size: real,
    status: GreenhouseStatus,
    createdAt: string,
    updatedAt: string)

  const FetchFailed := "Failed to fetch greenhouses"

  /** `gs.findIndex(g => g.id === id)`: the first position holding `id`, or -1. */
  function IndexOfId(gs: seq<Greenhouse>, id: int): (i: int)
    ensures -1 <= i < |gs|
    ensures i == -1 <==> forall k | 0 <= k < |gs| :: gs[k].id != id
    ensures 0 <= i ==> gs[i].id == id && forall k | 0 <= k < i :: gs[k].id != id
  {
    if gs == [] then -1
    else if gs[0].id == id then 0
    else
      var j := IndexOfId(gs[1..], id);
      if j == -1 then -1 else j + 1
  }

  /** The linear search `findIndex` performs. */
  method FindIndexById(gs: seq<Greenhouse>, id: int) returns (index: int)
    ensures index == IndexOfId(gs, id)
  {
    index := 0;
    while index < |gs| && gs[index].id != id
      invariant 0 <= index <= |gs|
      invariant forall k | 0 <= k < index :: gs[k].id != id
    {
      index := index + 1;
    }
    if index == |gs| {
      index := -1;
    }
  }

  /** What `updateGreenhouseStatus.fulfilled` does to the list: the entry
      `findIndex` finds is overwritten by the payload. */
  function ReplaceFirstById(gs: seq<Greenhouse>, g: Greenhouse): (r: seq<Greenhouse>)
    ensures |r| == |gs|
  {
    var i := IndexOfId(gs, g.id);
    if i == -1 then gs else gs[i := g]
  }

  /** `k` is the first position of `gs` whose greenhouse has identity `id`. */
  ghost predicate FirstWithId(gs: seq<Greenhouse>, k: int, id: int)
    requires 0 <= k < |gs|
  {
    gs[k].id == id && forall m | 0 <= m < k :: gs[m].id != id
  }

  /** The update replaces the first greenhouse with the payload's id by the
      payload, keeps every other position, the length and the order of ids,
      and changes nothing when no greenhouse has that id. */
  lemma {:induction false} ReplaceFirstByIdSpec(gs: seq<Greenhouse>, g: Greenhouse)
    ensures |ReplaceFirstById(gs, g)| == |gs|
    ensures forall k | 0 <= k < |gs| && FirstWithId(gs, k, g.id) :: ReplaceFirstById(gs, g)[k] == g
    ensures forall k | 0 <= k < |gs| && !FirstWithId(gs, k, g.id) :: ReplaceFirstById(gs, g)[k] == gs[k]
    ensures forall k | 0 <= k < |gs| :: ReplaceFirstById(gs, g)[k].id == gs[k].id
    ensures (forall k | 0 <= k < |gs| :: gs[k].id != g.id) ==> ReplaceFirstById(gs, g) == gs
  {
    var i := IndexOfId(gs, g.id);
    forall k | 0 <= k < |gs|
      ensures FirstWithId(gs, k, g.id) <==> k == i
    {
    }
  }

  /** Applying the same fulfilled update twice is applying it once. */
  lemma {:induction false} ReplaceFirstByIdIdempotent(gs: seq<Greenhouse>, g: Greenhouse)
    ensures ReplaceFirstById(ReplaceFirstById(gs, g), g) == ReplaceFirstById(gs, g)
  {
    var i := IndexOfId(gs, g.id);
    if i != -1 {
      var once := gs[i := g];
      assert forall k | 0 <= k < i :: once[k] == gs[k];
      assert once[i].id == g.id;
      var j := IndexOfId(once, g.id);
      assert j != -1;
      assert !(j < i) && !(i < j);
    }
  }

  /** The slice state (`GreenhouseState`); a fresh object is `initialState`. */
  class GreenhouseState {
    var greenhouses: seq<Greenhouse>
    var selectedGreenhouse: Option<Greenhouse>
    var loading: bool
    var error: Option<string>

    constructor ()
      ensures greenhouses == [] && selectedGreenhouse == None
      ensures !loading && error == None
    {
      greenhouses := [];
      selectedGreenhouse := None;
      loading := false;
      error := None;
    }

    method SetSelectedGreenhouse(payload: Option<Greenhouse>)
      modifies this
      ensures selectedGreenhouse == payload
      ensures greenhouses == old(greenhouses) && loading == old(loading) && error == old(error)
    {
      selectedGreenhouse := payload;
    }

    method FetchPending()
      modifies this
      ensures loading && error == None
      ensures greenhouses == old(greenhouses) && selectedGreenhouse == old(selectedGreenhouse)
    {
      loading := true;
      error := None;
    }

    method FetchFulfilled(payload: seq<Greenhouse>)
      modifies this
      ensures !loading && greenhouses == payload
      ensures error == old(error) && selectedGreenhouse == old(selectedGreenhouse)
    {
      loading := false;
      greenhouses := payload;
    }

    /** `message` is the rejected action's `error.message`, if it has one. */
    method FetchRejected(message: Option<string>)
      modifies this
      ensures !loading && error == Some(OrElse(message, FetchFailed))
      ensures error.Some? && error.value != ""
      ensures greenhouses == old(greenhouses) && selectedGreenhouse == old(selectedGreenhouse)
    {
      loading := false;
      error := Some(OrElse(message, FetchFailed));
    }

    method AddFulfilled(payload: Greenhouse)
      modifies this
      ensures greenhouses == old(greenhouses) + [payload]
      ensures |greenhouses| == |old(greenhouses)| + 1
      ensures greenhouses[..|old(greenhouses)|] == old(greenhouses)
      ensures loading == old(loading) && error == old(error)
      ensures selectedGreenhouse == old(selectedGreenhouse)
    {
      greenhouses := greenhouses + [payload];
    }

    method UpdateStatusFulfilled(payload: Greenhouse)
      modifies this
      ensures greenhouses == ReplaceFirstById(old(greenhouses), payload)
      ensures loading == old(loading) && error == old(error)
      ensures selectedGreenhouse == old(selectedGreenhouse)
    {
      var index := FindIndexById(greenhouses, payload.id);
      if index != -1 {
        greenhouses := greenhouses[index := payload];
      }
    }
  }
}
