/**
 Rebuilding a conversation from stored responses: the walk back along the chain,
 and the history builder with its byte budget and back references.
 */
module ReconstructSteps {
  import opened Basics

  const MAX_CHAIN_NODES := 256
  const MAX_CHAIN_BYTES := 64 * 1024 * 1024

  /** A continuity item; payload stands for everything else it says. */
  datatype Item = Item(kind: string, id: string, itemId: string, payload: string)

  /** An element of a decoded array. */
  datatype Raw = NotAnObject | Object(item: Item)

  datatype Error = PreviousNotFound | ContextLengthExceeded | Malformed

  const REFERENCE := "item_reference"

  predicate IsKept(kind: string) {
    kind in ["message", "function_call", "function_call_output", "reasoning"]
  }

  /** The JSON text of an item. */
  type Encoder = Item -> string

  datatype Builder = Builder(items: seq<Item>, references: map<string, Item>, encodedBytes: nat)

  const EMPTY := Builder([], map[], 2)

  function Resolve(b: Builder, item: Item): Result<Item, Error> {
    if item.kind != REFERENCE then Ok(item)
    else if item.itemId in b.references then Ok(b.references[item.itemId])
    else Err(PreviousNotFound)
  }

  function AppendOne(b: Builder, raw: Raw, strict: bool, encode: Encoder): Result<Builder, Error> {
    if raw.NotAnObject? then Err(Malformed)
    else
      var item := Resolve(b, raw.item);
      if item.Err? then Err(item.error)
      else if !IsKept(item.value.kind) then if strict then Err(Malformed) else Ok(b)
      else
        var additional := |encode(item.value)| + if b.items != [] then 1 else 0;
        if b.encodedBytes + additional > MAX_CHAIN_BYTES then Err(ContextLengthExceeded)
        else Ok(Builder(b.items + [item.value],
                        if item.value.id != "" then b.references[item.value.id := item.value] else b.references,
                        b.encodedBytes + additional))
  }

  function Append(b: Builder, raws: seq<Raw>, strict: bool, encode: Encoder): Result<Builder, Error> {
    if raws == [] then Ok(b)
    else
      var most := Append(b, raws[..|raws| - 1], strict, encode);
      if most.Err? then most else AppendOne(most.value, raws[|raws| - 1], strict, encode)
  }

  /** A stored response; input or output that does not decode is None. */
  datatype Node = Node(previous: string, preferred: string, input: Option<seq<Raw>>, output: Option<seq<Raw>>)

  type Repository = map<string, Node>

  /** The ids from the given one back to the first response, after those already visited. */
  function Walk(repo: Repository, id: string, visited: seq<string>): Result<seq<string>, Error>
    requires |visited| <= MAX_CHAIN_NODES
    decreases MAX_CHAIN_NODES - |visited|
  {
    if id == "" then Ok(visited)
    else if id in visited || |visited| >= MAX_CHAIN_NODES then Err(ContextLengthExceeded)
    else if id !in repo then Err(PreviousNotFound)
    else Walk(repo, repo[id].previous, visited + [id])
  }

  function AppendNode(b: Builder, node: Node, encode: Encoder): Result<Builder, Error> {
    if node.input.None? then Err(Malformed)
    else
      var inputs := Append(b, node.input.value, true, encode);
      if inputs.Err? then inputs
      else if node.output.None? then Err(Malformed)
      else Append(inputs.value, node.output.value, false, encode)
  }

  /** The history of the first n ids from the end of a walk, that is, from the oldest response on. */
  function History(repo: Repository, ids: seq<string>, n: nat, encode: Encoder): Result<Builder, Error>
    requires n <= |ids|
  {
    if n == 0 then Ok(EMPTY)
    else
      var older := History(repo, ids, n - 1, encode);
      if older.Err? then older
      else
        var id := ids[|ids| - n];
        if id !in repo then Err(PreviousNotFound) else AppendNode(older.value, repo[id], encode)
  }

  datatype Reconstruction = Reconstruction(items: seq<Item>, preferred: string)

  /** The current request: its input items, when it decodes, and the text of its body around the items. */
  function Normalize(b: Builder, current: Option<seq<Raw>>, body: seq<Item> -> string, preferred: string,
        encode: Encoder): Result<Reconstruction, Error> {
    if current.None? then Err(Malformed)
    else
      var all := Append(b, current.value, true, encode);
      if all.Err? then Err(all.error)
      else if |body(all.value.items)| > MAX_CHAIN_BYTES then Err(ContextLengthExceeded)
      else Ok(Reconstruction(all.value.items, preferred))
  }

  function Reconstruct(
      repo: Repository, current: Option<seq<Raw>>, previousId: string, encode: Encoder,
          body: seq<Item> -> string): Result<Reconstruction, Error> {
    if previousId == "" then Normalize(EMPTY, current, body, "", encode)
    else
      var ids := Walk(repo, previousId, []);
      if ids.Err? then Err(ids.error)
      else
        var history := History(repo, ids.value, |ids.value|, encode);
        if history.Err? then Err(history.error)
        else Normalize(history.value, current, body, if previousId in repo then repo[previousId].preferred else "",
                       encode)
  }
}

/** The builder and the reconstruction as the program runs them. */
module Reconstruct {
  import opened Basics
  import opened Steps = ReconstructSteps

  class HistoryBuilder {
    var items: seq<Item>
    var references: map<string, Item>
    var encodedBytes: nat

    function Fields(): Builder
      reads this
    {
      Builder(items, references, encodedBytes)
    }

    constructor ()
      ensures Fields() == EMPTY
    {
      items, references, encodedBytes := [], map[], 2;
    }

    /** On an error the builder is abandoned by its caller. */
    method Append(raws: seq<Raw>, strict: bool, encode: Encoder) returns (error: Option<Error>)
      modifies this
      ensures error.None? ==> Steps.Append(old(Fields()), raws, strict, encode) == Ok(Fields())
      ensures error.Some? ==> Steps.Append(old(Fields()), raws, strict, encode) == Err(error.value)
    {
      ghost var start := Fields();
      for i := 0 to |raws|
        invariant Steps.Append(start, raws[..i], strict, encode) == Ok(Fields())
      {
        assert raws[..i + 1][..i] == raws[..i];
        ghost var next := AppendOne(Fields(), raws[i], strict, encode);
        assert Steps.Append(start, raws[..i + 1], strict, encode) == next;
        if next.Err? { ErrorStays(start, raws, i + 1, strict, encode); }
        if raws[i].NotAnObject? { return Some(Malformed); }
        var item := raws[i].item;
        if item.kind == REFERENCE {
          if item.itemId !in references { return Some(PreviousNotFound); }
          item := references[item.itemId];
        }
        if !IsKept(item.kind) {
          if strict { return Some(Malformed); }
          continue;
        }
        var encoded := encode(item);
        var additional := |encoded|;
        if |items| > 0 { additional := additional + 1; }
        if encodedBytes + additional > MAX_CHAIN_BYTES { return Some(ContextLengthExceeded); }
        encodedBytes := encodedBytes + additional;
        items := items + [item];
        if item.id != "" { references := references[item.id := item]; }
      }
      assert raws[..|raws|] == raws;
      return None;
    }
  }

  lemma {:induction false} ErrorStays(b: Builder, raws: seq<Raw>, k: nat, strict: bool, encode: Encoder)
    requires k <= |raws| && Steps.Append(b, raws[..k], strict, encode).Err?
    ensures Steps.Append(b, raws, strict, encode) == Steps.Append(b, raws[..k], strict, encode)
  {
    hide AppendOne;
    if k < |raws| {
      var most := raws[..|raws| - 1];
      assert most[..k] == raws[..k];
      ErrorStays(b, most, k, strict, encode);
    } else {
      assert raws[..k] == raws;
    }
  }

  /** The walk back: every id is looked at once, and no more than the limit. */
  method WalkChain(repo: Repository, previousId: string) returns (result: Result<seq<string>, Error>)
    ensures result == Walk(repo, previousId, [])
  {
    var reverseIds: seq<string>, id := [], previousId;
    while id != ""
      invariant |reverseIds| <= MAX_CHAIN_NODES && Walk(repo, id, reverseIds) == Walk(repo, previousId, [])
      decreases MAX_CHAIN_NODES - |reverseIds|
    {
      if id in reverseIds || |reverseIds| >= MAX_CHAIN_NODES { return Err(ContextLengthExceeded); }
      if id !in repo { return Err(PreviousNotFound); }
      reverseIds := reverseIds + [id];
      id := repo[id].previous;
    }
    return Ok(reverseIds);
  }

  method NormalizeCurrent(builder: HistoryBuilder, current: Option<seq<Raw>>, body: seq<Item> -> string,
        preferred: string, encode: Encoder)
    returns (result: Result<Reconstruction, Error>)
    modifies builder
    ensures result == Normalize(old(builder.Fields()), current, body, preferred, encode)
  {
    if current.None? { return Err(Malformed); }
    var error := builder.Append(current.value, true, encode);
    if error.Some? { return Err(error.value); }
    if |body(builder.items)| > MAX_CHAIN_BYTES { return Err(ContextLengthExceeded); }
    return Ok(Reconstruction(builder.items, preferred));
  }

  method ReconstructRequest(repo: Repository, current: Option<seq<Raw>>, previousId: string, encode: Encoder,
        body: seq<Item> -> string)
    returns (result: Result<Reconstruction, Error>)
    ensures result == Steps.Reconstruct(repo, current, previousId, encode, body)
  {
    hide Walk, Steps.Append, Normalize;
    var builder := new HistoryBuilder();
    if previousId == "" {
      result := NormalizeCurrent(builder, current, body, "", encode);
      return;
    }
    var walked := WalkChain(repo, previousId);
    if walked.Err? { return Err(walked.error); }
    var ids := walked.value;
    for n := 0 to |ids|
      invariant History(repo, ids, n, encode) == Ok(builder.Fields())
    {
      var id := ids[|ids| - 1 - n];
      assert ids[|ids| - (n + 1)] == id;
      ghost var next := History(repo, ids, n + 1, encode);
      if next.Err? { OlderErrorStays(repo, ids, n + 1, encode); }
      if id !in repo { return Err(PreviousNotFound); }
      var node := repo[id];
      if node.input.None? { return Err(Malformed); }
      var error := builder.Append(node.input.value, true, encode);
      if error.Some? { return Err(error.value); }
      if node.output.None? { return Err(Malformed); }
      error := builder.Append(node.output.value, false, encode);
      if error.Some? { return Err(error.value); }
    }
    result := NormalizeCurrent(builder, current, body, if previousId in repo then repo[previousId].preferred else "",
                               encode);
  }

  lemma {:induction false} OlderErrorStays(repo: Repository, ids: seq<string>, n: nat, encode: Encoder)
    requires n <= |ids| && History(repo, ids, n, encode).Err?
    ensures History(repo, ids, |ids|, encode) == History(repo, ids, n, encode)
    decreases |ids| - n
  {
    hide AppendNode;
    if n < |ids| {
      assert History(repo, ids, n + 1, encode) == History(repo, ids, n, encode);
      OlderErrorStays(repo, ids, n + 1, encode);
    }
  }
}

/** The walk, the byte budget, and what is rebuilt. */
module ReconstructLaws {
  import opened Basics
  import opened ReconstructSteps

  // ----- The walk -----

  /** A chain of stored responses from an id back to one without a predecessor. */
  ghost predicate IsChain(repo: Repository, id: string, ids: seq<string>)
    decreases |ids|
  {
    if ids == [] then id == ""
    else id == ids[0] != "" && id in repo && IsChain(repo, repo[id].previous, ids[1..])
  }

  predicate Distinct(ids: seq<string>) {
    forall i, j :: 0 <= i < j < |ids| ==> ids[i] != ids[j]
  }

  lemma {:induction false} WalkSays(repo: Repository, id: string, visited: seq<string>)
    requires |visited| <= MAX_CHAIN_NODES && Distinct(visited)
    ensures var walked := Walk(repo, id, visited);
            walked.Ok? ==> visited <= walked.value && IsChain(repo, id, walked.value[|visited|..])
                           && |walked.value| <= MAX_CHAIN_NODES && Distinct(walked.value)
    decreases MAX_CHAIN_NODES - |visited|
  {
    if id == "" {
      assert visited[|visited|..] == [];
    } else if id !in visited && |visited| < MAX_CHAIN_NODES && id in repo {
      WalkSays(repo, repo[id].previous, visited + [id]);
      var walked := Walk(repo, id, visited);
      if walked.Ok? {
        assert (visited + [id])[|visited|] == id;
        assert walked.value[|visited|..][1..] == walked.value[|visited| + 1..];
      }
    }
  }

  /** The chain from an id is unique, so it cannot come back to an id. */
  lemma {:induction false} SameChain(repo: Repository, id: string, a: seq<string>, b: seq<string>)
    requires IsChain(repo, id, a) && IsChain(repo, id, b)
    ensures a == b
    decreases |a|
  {
    if a != [] {
      SameChain(repo, repo[id].previous, a[1..], b[1..]);
      assert a == [a[0]] + a[1..] && b == [b[0]] + b[1..];
    }
  }

  lemma {:induction false} ChainFrom(repo: Repository, id: string, ids: seq<string>, k: nat)
    requires IsChain(repo, id, ids) && k < |ids|
    ensures IsChain(repo, ids[k], ids[k..])
    decreases k
  {
    if k > 0 {
      ChainFrom(repo, repo[id].previous, ids[1..], k - 1);
      assert ids[1..][k - 1..] == ids[k..];
    } else {
      assert ids[0..] == ids;
    }
  }

  lemma ChainDistinct(repo: Repository, id: string, ids: seq<string>)
    requires IsChain(repo, id, ids)
    ensures Distinct(ids)
  {
    forall i, j | 0 <= i < j < |ids| ensures ids[i] != ids[j] {
      ChainFrom(repo, id, ids, i);
      ChainFrom(repo, id, ids, j);
      if ids[i] == ids[j] {
        SameChain(repo, ids[i], ids[i..], ids[j..]);
      }
    }
  }

  lemma {:induction false} ChainWalked(repo: Repository, id: string, visited: seq<string>, ids: seq<string>)
    requires IsChain(repo, id, ids) && |visited| + |ids| <= MAX_CHAIN_NODES && Distinct(visited + ids)
    ensures Walk(repo, id, visited) == Ok(visited + ids)
    decreases |ids|
  {
    if ids == [] {
      assert visited + ids == visited;
    } else {
      assert (visited + ids)[|visited|] == id;
      forall i | 0 <= i < |visited| ensures visited[i] != id { assert (visited + ids)[i] == visited[i]; }
      assert visited + ids == (visited + [id]) + ids[1..];
      ChainWalked(repo, repo[id].previous, visited + [id], ids[1..]);
    }
  }

  /**
   The walk ends on any store, cyclic or not: it returns a chain exactly when one of at most 256 responses leads
   back to a first one, and then lists each id of it once.
   */
  lemma WalkExactly(repo: Repository, id: string, ids: seq<string>)
    ensures Walk(repo, id, []) == Ok(ids) <==> IsChain(repo, id, ids) && |ids| <= MAX_CHAIN_NODES
    ensures Walk(repo, id, []) == Ok(ids) ==> Distinct(ids)
  {
    WalkSays(repo, id, []);
    if Walk(repo, id, []) == Ok(ids) {
      assert ids[0..] == ids;
    }
    if IsChain(repo, id, ids) && |ids| <= MAX_CHAIN_NODES {
      ChainDistinct(repo, id, ids);
      assert [] + ids == ids;
      ChainWalked(repo, id, [], ids);
    }
  }

  // ----- The byte budget -----

  function Joined(items: seq<Item>, encode: Encoder): string {
    if items == [] then ""
    else if |items| == 1 then encode(items[0])
    else Joined(items[..|items| - 1], encode) + "," + encode(items[|items| - 1])
  }

  /** The items as a JSON array. */
  function ArrayText(items: seq<Item>, encode: Encoder): string {
    "[" + Joined(items, encode) + "]"
  }

  /** The latest of the items with an id. */
  function Latest(items: seq<Item>, id: string): Option<Item> {
    if items == [] || id == "" then None
    else if items[|items| - 1].id == id then Some(items[|items| - 1])
    else Latest(items[..|items| - 1], id)
  }

  /**
   What every builder satisfies: its budget is exact, its references are the latest items, and nothing is left
   unresolved.
   */
  ghost predicate BuilderValid(b: Builder, encode: Encoder) {
    && b.encodedBytes == |ArrayText(b.items, encode)| <= MAX_CHAIN_BYTES
    && (forall id :: id in b.references <==> Latest(b.items, id).Some?)
    && (forall id :: id in b.references ==> Some(b.references[id]) == Latest(b.items, id))
    && (forall k :: 0 <= k < |b.items| ==> IsKept(b.items[k].kind))
  }

  lemma LatestMore(items: seq<Item>, item: Item, id: string)
    ensures Latest(items + [item], id) == if id != "" && item.id == id then Some(item) else Latest(items, id)
  {
    assert (items + [item])[..|items|] == items;
  }

  lemma JoinedMore(items: seq<Item>, item: Item, encode: Encoder)
    ensures |Joined(items + [item], encode)| == |Joined(items, encode)| + |encode(item)| + if items == [] then 0 else 1
  {
    assert (items + [item])[..|items|] == items;
  }

  /**
   What one more element makes of a list of items, without any bookkeeping: it is kept, resolved, passed over, or
   refused.
   */
  function Extended(items: seq<Item>, raw: Raw, strict: bool): Result<seq<Item>, Error> {
    if raw.NotAnObject? then Err(Malformed)
    else
      var item := if raw.item.kind == REFERENCE then Latest(items, raw.item.itemId) else Some(raw.item);
      if item.None? then Err(PreviousNotFound)
      else if IsKept(item.value.kind) then Ok(items + [item.value])
      else if strict then Err(Malformed)
      else Ok(items)
  }

  lemma AppendOneValid(b: Builder, raw: Raw, strict: bool, encode: Encoder)
    requires BuilderValid(b, encode)
    ensures var o := AppendOne(b, raw, strict, encode);
            o.Ok? ==> BuilderValid(o.value, encode) && Extended(b.items, raw, strict) == Ok(o.value.items)
    ensures var o := AppendOne(b, raw, strict, encode);
            o.Err? && o.error != ContextLengthExceeded ==> Extended(b.items, raw, strict) == Err(o.error)
  {
    hide Joined, Latest, IsKept;
    var o := AppendOne(b, raw, strict, encode);
    if o.Ok? && o.value != b {
      var item := Resolve(b, raw.item).value;
      JoinedMore(b.items, item, encode);
      forall id
        ensures Latest(b.items + [item], id) == if id != "" && item.id == id then Some(item) else Latest(b.items, id)
      {
        LatestMore(b.items, item, id);
      }
    }
  }

  function ExtendedAll(items: seq<Item>, raws: seq<Raw>, strict: bool): Result<seq<Item>, Error> {
    if raws == [] then Ok(items)
    else
      var most := ExtendedAll(items, raws[..|raws| - 1], strict);
      if most.Err? then most else Extended(most.value, raws[|raws| - 1], strict)
  }

  lemma {:induction false} AppendValid(b: Builder, raws: seq<Raw>, strict: bool, encode: Encoder)
    requires BuilderValid(b, encode)
    ensures var o := Append(b, raws, strict, encode);
            o.Ok? ==> BuilderValid(o.value, encode) && ExtendedAll(b.items, raws, strict) == Ok(o.value.items)
  {
    hide AppendOne, BuilderValid, Extended;
    if raws != [] {
      AppendValid(b, raws[..|raws| - 1], strict, encode);
      var most := Append(b, raws[..|raws| - 1], strict, encode);
      if most.Ok? { AppendOneValid(most.value, raws[|raws| - 1], strict, encode); }
    }
  }

  lemma EmptyValid(encode: Encoder)
    ensures BuilderValid(EMPTY, encode)
  {
  }

  /** A response's inputs, then its outputs. */
  function NodeItems(items: seq<Item>, node: Node): Result<seq<Item>, Error> {
    if node.input.None? || node.output.None? then Err(Malformed)
    else
      var inputs := ExtendedAll(items, node.input.value, true);
      if inputs.Err? then inputs else ExtendedAll(inputs.value, node.output.value, false)
  }

  function HistoryItems(repo: Repository, ids: seq<string>, n: nat): Result<seq<Item>, Error>
    requires n <= |ids|
  {
    if n == 0 then Ok([])
    else
      var older := HistoryItems(repo, ids, n - 1);
      if older.Err? then older
      else if ids[|ids| - n] !in repo then Err(PreviousNotFound)
      else NodeItems(older.value, repo[ids[|ids| - n]])
  }

  lemma NodeValid(b: Builder, node: Node, encode: Encoder)
    requires BuilderValid(b, encode)
    ensures var o := AppendNode(b, node, encode);
            o.Ok? ==> BuilderValid(o.value, encode) && NodeItems(b.items, node) == Ok(o.value.items)
  {
    hide Append, ExtendedAll, BuilderValid;
    if node.input.Some? && node.output.Some? {
      AppendValid(b, node.input.value, true, encode);
      var inputs := Append(b, node.input.value, true, encode);
      if inputs.Ok? { AppendValid(inputs.value, node.output.value, false, encode); }
    }
  }

  lemma {:induction false} HistoryValid(repo: Repository, ids: seq<string>, n: nat, encode: Encoder)
    requires n <= |ids|
    ensures var o := History(repo, ids, n, encode);
            o.Ok? ==> BuilderValid(o.value, encode) && HistoryItems(repo, ids, n) == Ok(o.value.items)
  {
    hide AppendNode, NodeItems, BuilderValid;
    if n == 0 {
      EmptyValid(encode);
    } else {
      HistoryValid(repo, ids, n - 1, encode);
      var older := History(repo, ids, n - 1, encode);
      if older.Ok? && ids[|ids| - n] in repo { NodeValid(older.value, repo[ids[|ids| - n]], encode); }
    }
  }

  // ----- Main results -----

  /** The oldest response first, each with its inputs and then its kept outputs, and the current items at the end. */
  ghost predicate Rebuilt(repo: Repository, current: seq<Raw>, previousId: string, items: seq<Item>) {
    exists ids ::
      && (if previousId == "" then ids == []
          else IsChain(repo, previousId, ids) && 0 < |ids| <= MAX_CHAIN_NODES && Distinct(ids))
      && var history := HistoryItems(repo, ids, |ids|);
         history.Ok? && ExtendedAll(history.value, current, true) == Ok(items)
  }

  lemma NormalizeSays(b: Builder, current: Option<seq<Raw>>, body: seq<Item> -> string, preferred: string,
        encode: Encoder)
    requires BuilderValid(b, encode) && Normalize(b, current, body, preferred, encode).Ok?
    ensures var r := Normalize(b, current, body, preferred, encode).value;
            && current.Some? && ExtendedAll(b.items, current.value, true) == Ok(r.items)
            && |ArrayText(r.items, encode)| <= MAX_CHAIN_BYTES && |body(r.items)| <= MAX_CHAIN_BYTES
            && forall k :: 0 <= k < |r.items| ==> IsKept(r.items[k].kind)
  {
    hide Append, ExtendedAll, ArrayText, IsKept;
    AppendValid(b, current.value, true, encode);
  }

  /**
   A reconstruction that succeeds lists, from the oldest response on, the inputs and kept outputs of a chain of at
   most 256 distinct responses and then the current items; no reference is left in it, and neither the item array
   nor the body is longer than the limit.
   */
  lemma ReconstructionIsFaithful(repo: Repository, current: Option<seq<Raw>>, previousId: string, encode: Encoder,
        body: seq<Item> -> string)
    requires Reconstruct(repo, current, previousId, encode, body).Ok?
    ensures var r := Reconstruct(repo, current, previousId, encode, body).value;
            && current.Some? && Rebuilt(repo, current.value, previousId, r.items)
            && |ArrayText(r.items, encode)| <= MAX_CHAIN_BYTES && |body(r.items)| <= MAX_CHAIN_BYTES
            && (forall k :: 0 <= k < |r.items| ==> r.items[k].kind != REFERENCE)
            && (previousId != "" ==> previousId in repo && r.preferred == repo[previousId].preferred)
  {
    hide Walk, ArrayText, BuilderValid, Normalize, ExtendedAll, IsChain, Distinct;
    var ids := if previousId == "" then [] else Walk(repo, previousId, []).value;
    if previousId == "" {
      EmptyValid(encode);
      NormalizeSays(EMPTY, current, body, "", encode);
      assert HistoryItems(repo, [], 0) == Ok([]);
    } else {
      WalkExactly(repo, previousId, ids);
      ChainStarts(repo, previousId, ids);
      HistoryValid(repo, ids, |ids|, encode);
      NormalizeSays(History(repo, ids, |ids|, encode).value, current, body, repo[previousId].preferred, encode);
      NormalizePreferred(repo, current, previousId, encode, body);
    }
    KeptIsNoReference();
  }

  lemma NormalizePreferred(repo: Repository, current: Option<seq<Raw>>, previousId: string, encode: Encoder,
        body: seq<Item> -> string)
    requires Reconstruct(repo, current, previousId, encode, body).Ok? && previousId in repo && previousId != ""
    ensures Reconstruct(repo, current, previousId, encode, body).value.preferred == repo[previousId].preferred
  {
    hide Walk, History, Append;
  }

  lemma ChainStarts(repo: Repository, id: string, ids: seq<string>)
    requires IsChain(repo, id, ids) && id != ""
    ensures ids != [] && id in repo
  {
  }

  lemma KeptIsNoReference()
    ensures !IsKept(REFERENCE)
  {
  }

  // ----- Nothing else is refused -----

  lemma {:induction false} ArrayGrows(items: seq<Item>, more: seq<Item>, encode: Encoder)
    ensures |ArrayText(items, encode)| <= |ArrayText(items + more, encode)|
  {
    if more == [] {
      assert items + more == items;
    } else {
      var most := more[..|more| - 1];
      ArrayGrows(items, most, encode);
      JoinedMore(items + most, more[|more| - 1], encode);
      assert items + more == items + most + [more[|more| - 1]];
      hide Joined;
    }
  }

  lemma PrefixIsShorter(items: seq<Item>, longer: seq<Item>, encode: Encoder)
    requires items <= longer
    ensures |ArrayText(items, encode)| <= |ArrayText(longer, encode)|
  {
    ArrayGrows(items, longer[|items|..], encode);
    assert items + longer[|items|..] == longer;
  }

  lemma {:induction false} ExtendedGrows(items: seq<Item>, raws: seq<Raw>, strict: bool)
    ensures ExtendedAll(items, raws, strict).Ok? ==> items <= ExtendedAll(items, raws, strict).value
  {
    hide Latest, IsKept;
    if raws != [] { ExtendedGrows(items, raws[..|raws| - 1], strict); }
  }

  /** What the builder refuses for its size is too long. */
  lemma AppendOneFits(b: Builder, raw: Raw, strict: bool, encode: Encoder)
    requires BuilderValid(b, encode) && Extended(b.items, raw, strict).Ok?
    requires |ArrayText(Extended(b.items, raw, strict).value, encode)| <= MAX_CHAIN_BYTES
    ensures AppendOne(b, raw, strict, encode).Ok?
  {
    hide Joined, Latest, IsKept;
    var o := Extended(b.items, raw, strict).value;
    if o != b.items { JoinedMore(b.items, o[|b.items|], encode); }
  }

  lemma {:induction false} AppendFits(b: Builder, raws: seq<Raw>, strict: bool, encode: Encoder)
    requires BuilderValid(b, encode) && ExtendedAll(b.items, raws, strict).Ok?
    requires |ArrayText(ExtendedAll(b.items, raws, strict).value, encode)| <= MAX_CHAIN_BYTES
    ensures Append(b, raws, strict, encode).Ok?
  {
    hide AppendOne, BuilderValid, Extended, ArrayText;
    if raws != [] {
      var most := ExtendedAll(b.items, raws[..|raws| - 1], strict).value;
      OneGrows(most, raws[|raws| - 1], strict);
      PrefixIsShorter(most, ExtendedAll(b.items, raws, strict).value, encode);
      AppendFits(b, raws[..|raws| - 1], strict, encode);
      AppendValid(b, raws[..|raws| - 1], strict, encode);
      AppendOneFits(Append(b, raws[..|raws| - 1], strict, encode).value, raws[|raws| - 1], strict, encode);
    }
  }

  lemma OneGrows(items: seq<Item>, raw: Raw, strict: bool)
    ensures Extended(items, raw, strict).Ok? ==> items <= Extended(items, raw, strict).value
  {
    hide Latest, IsKept;
  }

  lemma NodeFits(b: Builder, node: Node, encode: Encoder)
    requires BuilderValid(b, encode) && NodeItems(b.items, node).Ok?
    requires |ArrayText(NodeItems(b.items, node).value, encode)| <= MAX_CHAIN_BYTES
    ensures AppendNode(b, node, encode).Ok?
  {
    hide Append, ExtendedAll, BuilderValid, ArrayText;
    var inputs := ExtendedAll(b.items, node.input.value, true).value;
    ExtendedGrows(inputs, node.output.value, false);
    PrefixIsShorter(inputs, NodeItems(b.items, node).value, encode);
    AppendFits(b, node.input.value, true, encode);
    AppendValid(b, node.input.value, true, encode);
    AppendFits(Append(b, node.input.value, true, encode).value, node.output.value, false, encode);
  }

  lemma NodeGrows(items: seq<Item>, node: Node)
    ensures NodeItems(items, node).Ok? ==> items <= NodeItems(items, node).value
  {
    hide ExtendedAll;
    if NodeItems(items, node).Ok? {
      ExtendedGrows(items, node.input.value, true);
      ExtendedGrows(ExtendedAll(items, node.input.value, true).value, node.output.value, false);
    }
  }

  lemma {:induction false} HistoryFits(repo: Repository, ids: seq<string>, n: nat, encode: Encoder)
    requires n <= |ids| && HistoryItems(repo, ids, n).Ok?
    requires |ArrayText(HistoryItems(repo, ids, n).value, encode)| <= MAX_CHAIN_BYTES
    ensures History(repo, ids, n, encode).Ok?
  {
    hide AppendNode, NodeItems, BuilderValid, ArrayText;
    if n > 0 {
      var older := HistoryItems(repo, ids, n - 1).value;
      var node := repo[ids[|ids| - n]];
      NodeGrows(older, node);
      PrefixIsShorter(older, HistoryItems(repo, ids, n).value, encode);
      HistoryFits(repo, ids, n - 1, encode);
      HistoryValid(repo, ids, n - 1, encode);
      NodeFits(History(repo, ids, n - 1, encode).value, node, encode);
    }
  }

  lemma NormalizeFits(b: Builder, current: seq<Raw>, body: seq<Item> -> string, preferred: string, items: seq<Item>,
        encode: Encoder)
    requires BuilderValid(b, encode) && ExtendedAll(b.items, current, true) == Ok(items)
    requires |ArrayText(items, encode)| <= MAX_CHAIN_BYTES && |body(items)| <= MAX_CHAIN_BYTES
    ensures Normalize(b, Some(current), body, preferred, encode) == Ok(Reconstruction(items, preferred))
  {
    hide Append, ExtendedAll, ArrayText, BuilderValid;
    AppendFits(b, current, true, encode);
    AppendValid(b, current, true, encode);
  }

  predicate Rebuilds(
      repo: Repository, current: Option<seq<Raw>>, previousId: string, encode: Encoder, body: seq<Item> -> string,
          items: seq<Item>) {
    var o := Reconstruct(repo, current, previousId, encode, body);
    o.Ok? && o.value.items == items
  }

  /**
   A request is reconstructed exactly when its chain can be walked and resolved and the result is within both limits.
   */
  lemma ReconstructsExactly(
      repo: Repository, current: Option<seq<Raw>>, previousId: string, encode: Encoder, body: seq<Item> -> string,
          items: seq<Item>)
    ensures Rebuilds(repo, current, previousId, encode, body, items)
       <==> && current.Some? && Rebuilt(repo, current.value, previousId, items)
            && |ArrayText(items, encode)| <= MAX_CHAIN_BYTES && |body(items)| <= MAX_CHAIN_BYTES
  {
    hide Walk, ArrayText, BuilderValid, Normalize, ExtendedAll, IsChain, Distinct, History, HistoryItems;
    if Reconstruct(repo, current, previousId, encode, body).Ok? {
      ReconstructionIsFaithful(repo, current, previousId, encode, body);
    }
    if current.Some? && Rebuilt(repo, current.value, previousId, items)
       && |ArrayText(items, encode)| <= MAX_CHAIN_BYTES && |body(items)| <= MAX_CHAIN_BYTES {
      RebuiltIsMade(repo, current.value, previousId, encode, body, items);
    }
  }

  lemma RebuiltIsMade(
      repo: Repository, current: seq<Raw>, previousId: string, encode: Encoder, body: seq<Item> -> string,
          items: seq<Item>)
    requires Rebuilt(repo, current, previousId, items)
    requires |ArrayText(items, encode)| <= MAX_CHAIN_BYTES && |body(items)| <= MAX_CHAIN_BYTES
    ensures Rebuilds(repo, Some(current), previousId, encode, body, items)
  {
    hide Walk, ArrayText, BuilderValid, Normalize, ExtendedAll, IsChain, Distinct, AppendNode, NodeItems;
    var ids :|
      && (if previousId == "" then ids == []
          else IsChain(repo, previousId, ids) && 0 < |ids| <= MAX_CHAIN_NODES && Distinct(ids))
      && var history := HistoryItems(repo, ids, |ids|);
         history.Ok? && ExtendedAll(history.value, current, true) == Ok(items);
    var before := HistoryItems(repo, ids, |ids|).value;
    ExtendedGrows(before, current, true);
    PrefixIsShorter(before, items, encode);
    HistoryFits(repo, ids, |ids|, encode);
    HistoryValid(repo, ids, |ids|, encode);
    var b := History(repo, ids, |ids|, encode).value;
    if previousId != "" { WalkExactly(repo, previousId, ids); }
    NormalizeFits(b, current, body, if previousId in repo && previousId != "" then repo[previousId].preferred else "",
                  items, encode);
  }

  /** The builder's count is the exact length of the array text at every moment of a reconstruction. */
  lemma BudgetIsExact(repo: Repository, ids: seq<string>, n: nat, more: seq<Raw>, strict: bool, encode: Encoder)
    requires n <= |ids| && History(repo, ids, n, encode).Ok?
    requires Append(History(repo, ids, n, encode).value, more, strict, encode).Ok?
    ensures var b := Append(History(repo, ids, n, encode).value, more, strict, encode).value;
            b.encodedBytes == |ArrayText(b.items, encode)| <= MAX_CHAIN_BYTES
  {
    HistoryValid(repo, ids, n, encode);
    AppendValid(History(repo, ids, n, encode).value, more, strict, encode);
    hide History, Append, ArrayText;
  }

  /** The text that is emitted for the items: a list that was never added to is written as null. */
  function EmittedText(items: seq<Item>, encode: Encoder): string {
    if items == [] then "null" else ArrayText(items, encode)
  }

  /**
   A request without history and with an empty input is reconstructed with no item: its count is 2, what is emitted is
   longer.
   */
  lemma EmptyInputEmitted(repo: Repository, encode: Encoder, body: seq<Item> -> string)
    requires |body([])| <= MAX_CHAIN_BYTES
    ensures Reconstruct(repo, Some([]), "", encode, body) == Ok(Reconstruction([], ""))
    ensures EMPTY.encodedBytes == 2 && |EmittedText([], encode)| == 4
  {
  }

  /** So the count is the emitted length exactly when there is an item at all. */
  lemma BudgetMatchesEmitted(b: Builder, encode: Encoder)
    requires BuilderValid(b, encode)
    ensures b.encodedBytes == |EmittedText(b.items, encode)| <==> b.items != []
  {
    assert b.items == [] ==> |ArrayText(b.items, encode)| == 2;
  }

  /** The elements of a list that are kept. */
  function KeptOf(raws: seq<Raw>): seq<Item> {
    if raws == [] then []
    else
      var last := raws[|raws| - 1];
      KeptOf(raws[..|raws| - 1]) + (if last.Object? && IsKept(last.item.kind) then [last.item] else [])
  }

  /**
   Without references, elements are simply appended: all of them where the mode is strict, the kept ones otherwise.
   */
  lemma {:induction false} PlainElementsAppended(items: seq<Item>, raws: seq<Raw>, strict: bool)
    requires forall k :: 0 <= k < |raws| ==> raws[k].Object? && raws[k].item.kind != REFERENCE
    ensures ExtendedAll(items, raws, strict).Ok?
       <==> !strict || forall k :: 0 <= k < |raws| ==> IsKept(raws[k].item.kind)
    ensures ExtendedAll(items, raws, strict).Ok? ==> ExtendedAll(items, raws, strict) == Ok(items + KeptOf(raws))
  {
    hide IsKept;
    if raws == [] {
      assert items + [] == items;
    } else {
      var most := raws[..|raws| - 1];
      PlainElementsAppended(items, most, strict);
      var last := raws[|raws| - 1].item;
      assert items + KeptOf(most) + [last] == items + (KeptOf(most) + [last]);
      assert KeptOf(most) + [] == KeptOf(most);
      assert forall k :: 0 <= k < |most| ==> most[k] == raws[k];
    }
  }
}
