/** Fitting collected evidence into a character budget before it is shown to the analyst model. */
module EvidenceBudget {
  import opened Json
  import opened Sequences

  datatype Item = Item(
    id: string,
    tool: string,
    collectedAt: string,
    ok: bool,
    data: Json,
    pagination: Json,
    error: Json,
    timeout: bool)

  /** What must survive any reduction: everything but the data field. */
  function Metadata(item: Item): Item {
    item.(data := Null)
  }

  function ItemJson(item: Item): Json {
    Obj([Field("evidence_id", Str(item.id)), Field("tool", Str(item.tool)),
         Field("collected_at", Str(item.collectedAt)), Field("ok", Bool(item.ok)),
         Field("data", item.data), Field("pagination", item.pagination),
         Field("error", item.error), Field("timeout", Bool(item.timeout))])
  }

  function ItemsJson(items: seq<Item>): seq<Json> {
    seq(|items|, i requires 0 <= i < |items| => ItemJson(items[i]))
  }

  function Serialize(items: seq<Item>): string {
    Dump(Arr(ItemsJson(items)))
  }

  predicate Fits(items: seq<Item>, maxChars: int) {
    |Serialize(items)| <= maxChars
  }

  // ----- the two passes -----

  function Stub(preview: Json): Json {
    Obj([Field("truncated", Bool(true)), Field("preview", preview)])
  }

  /** `preview[:100] if preview else ""`: only text and lists can be sliced. */
  function Clip(preview: Json): Result<Json> {
    if !Truthy(preview) then Ok(Str(""))
    else match preview
      case Str(s) => Ok(Str(Prefix(s, 100)))
      case Arr(items) => Ok(Arr(Prefix(items, 100)))
      case _ => Err("preview cannot be sliced")
  }

  predicate WasTruncated(data: Json) {
    data.Obj? && Truthy(Get(data, "truncated", Null))
  }

  /** The first pass on one item, given what is already kept. */
  function Shrink(kept: seq<Item>, item: Item, maxChars: int): (r: Result<Item>) {
    if item.data.Null? || Fits(kept + [item], maxChars) then Ok(item)
    else if WasTruncated(item.data) then
      var preview := Get(item.data, "preview", Str(""));
      var short := item.(data := Stub(preview));
      if Fits(kept + [short], maxChars) then Ok(short)
      else match Clip(preview)
        case Ok(clipped) => Ok(item.(data := Stub(clipped)))
        case Err(e) => Err(e)
    else
      var note := match item.data
        case Obj(fields) => Decimal(|fields|) + " fields truncated"
        case Arr(items) => Decimal(|items|) + " rows truncated"
        case _ => "";
      var noted := item.(data := Stub(Str(note)));
      if (item.data.Obj? || item.data.Arr?) && Fits(kept + [noted], maxChars) then Ok(noted)
      else Ok(item)
  }

  function FirstPass(evidence: seq<Item>, maxChars: int): Result<seq<Item>> {
    if evidence == [] then Ok([])
    else match FirstPass(evidence[..|evidence| - 1], maxChars)
      case Err(e) => Err(e)
      case Ok(kept) =>
        match Shrink(kept, evidence[|evidence| - 1], maxChars)
        case Err(e) => Err(e)
        case Ok(item) => Ok(kept + [item])
  }

  function Minimal(item: Item): Item {
    item.(data := Stub(Str("data truncated due to budget")))
  }

  function SecondPass(evidence: seq<Item>, maxChars: int): seq<Item> {
    if evidence == [] then []
    else
      var kept := SecondPass(evidence[..|evidence| - 1], maxChars);
      var item := evidence[|evidence| - 1];
      if Fits(kept + [Minimal(item)], maxChars) then kept + [Minimal(item)]
      else if Fits(kept + [Metadata(item)], maxChars) then kept + [Metadata(item)]
      else kept
  }

  function Fit(evidence: seq<Item>, maxChars: int): Result<seq<Item>> {
    if maxChars <= 0 then Ok([])
    else if Fits(evidence, maxChars) then Ok(evidence)
    else match FirstPass(evidence, maxChars)
      case Err(e) => Err(e)
      case Ok(bounded) =>
        if Fits(bounded, maxChars) then Ok(bounded) else Ok(SecondPass(evidence, maxChars))
  }

  /** fit_evidence_budget: both loops grow a list item by item. */
  method FitEvidenceBudget(evidence: seq<Item>, maxChars: int) returns (r: Result<seq<Item>>)
    ensures r == Fit(evidence, maxChars)
    ensures r.Ok? ==> Decides(evidence, r.value, maxChars)
  {
    hide Decides;
    if Fit(evidence, maxChars).Ok? {
      FitDecides(evidence, maxChars);
    }
    if maxChars <= 0 {
      return Ok([]);
    }
    if Fits(evidence, maxChars) {
      return Ok(evidence);
    }
    var bounded: seq<Item> := [];
    for i := 0 to |evidence|
      invariant FirstPass(evidence[..i], maxChars) == Ok(bounded)
    {
      assert evidence[..i + 1][..i] == evidence[..i];
      var shrunk := Shrink(bounded, evidence[i], maxChars);
      if shrunk.Err? {
        FirstPassErrorPersists(evidence, i + 1, maxChars);
        return Err(shrunk.exception);
      }
      bounded := bounded + [shrunk.value];
    }
    assert evidence[..|evidence|] == evidence;
    if Fits(bounded, maxChars) {
      return Ok(bounded);
    }
    var result: seq<Item> := [];
    for i := 0 to |evidence|
      invariant result == SecondPass(evidence[..i], maxChars)
    {
      assert evidence[..i + 1][..i] == evidence[..i];
      if Fits(result + [Minimal(evidence[i])], maxChars) {
        result := result + [Minimal(evidence[i])];
      } else if Fits(result + [Metadata(evidence[i])], maxChars) {
        result := result + [Metadata(evidence[i])];
      }
    }
    return Ok(result);
  }

  lemma {:induction false} FirstPassErrorPersists(evidence: seq<Item>, i: nat, maxChars: int)
    requires i <= |evidence|
    requires FirstPass(evidence[..i], maxChars).Err?
    ensures FirstPass(evidence, maxChars) == FirstPass(evidence[..i], maxChars)
    decreases |evidence|
  {
    if i < |evidence| {
      assert evidence[..|evidence| - 1][..i] == evidence[..i];
      FirstPassErrorPersists(evidence[..|evidence| - 1], i, maxChars);
    } else {
      assert evidence[..i] == evidence;
    }
  }

  // ----- length accounting -----

  /** An item's share of the text: its own characters plus a separator or half the brackets. */
  function Weight(item: Item): nat {
    |Dump(ItemJson(item))| + 2
  }

  predicate PlainKey(key: string) {
    forall i :: 0 <= i < |key| ==> IsPlain(key[i])
  }

  /** A field's share of an object's text: its key with quotes, colon and space, its value, and a separator. */
  lemma FieldLength(fields: seq<Field>, k: nat)
    requires k < |fields| && PlainKey(fields[k].key)
    ensures |DumpFields(fields[k..])| ==
            |fields[k].key| + 4 + |Dump(fields[k].value)|
            + if k + 1 == |fields| then 0 else 2 + |DumpFields(fields[k + 1..])|
  {
    hide Dump, DumpFields, EscapedText, IsPlain;
    assert fields[k..] == [fields[k]] + fields[k + 1..];
    DumpFieldsPrepend(fields[k], fields[k + 1..]);
    PlainTextStays(fields[k].key);
  }

  /** The text of an item: 103 characters of its own and those of its eight values. */
  lemma ItemTextLengthIs(item: Item)
    ensures |Dump(ItemJson(item))| ==
            103 + |EscapedText(item.id)| + 2 + |EscapedText(item.tool)| + 2 + |EscapedText(item.collectedAt)| + 2
            + (if item.ok then 4 else 5) + |Dump(item.data)| + |Dump(item.pagination)| + |Dump(item.error)|
            + (if item.timeout then 4 else 5)
  {
    hide *;
    ItemFields(item);
    ScalarLengths(item);
    ItemTextLength(item);
    var f := ItemJson(item).fields;
    assert f[0..] == f;
    FourFields(f, 0);
    FourFields(f, 4);
  }

  lemma FourFields(f: seq<Field>, k: nat)
    requires |f| == 8 && (k == 0 || k == 4) && forall i :: 0 <= i < 8 ==> PlainKey(f[i].key)
    ensures |DumpFields(f[k..])| ==
            22 + |f[k].key| + |Dump(f[k].value)| + |f[k + 1].key| + |Dump(f[k + 1].value)| + |f[k + 2].key|
            + |Dump(f[k + 2].value)| + |f[k + 3].key| + |Dump(f[k + 3].value)|
            + if k == 4 then 0 else 2 + |DumpFields(f[4..])|
  {
    hide *;
    FieldLength(f, k);
    FieldLength(f, k + 1);
    FieldLength(f, k + 2);
    FieldLength(f, k + 3);
  }

  lemma ItemFields(item: Item)
    ensures ItemJson(item).Obj?
    ensures var f := ItemJson(item).fields;
            && |f| == 8 && (forall i :: 0 <= i < 8 ==> PlainKey(f[i].key))
            && |f[0].key| == 11 && |f[1].key| == 4 && |f[2].key| == 12 && |f[3].key| == 2
            && |f[4].key| == 4 && |f[5].key| == 10 && |f[6].key| == 5 && |f[7].key| == 7
            && f[0].value == Str(item.id) && f[1].value == Str(item.tool) && f[2].value == Str(item.collectedAt)
            && f[3].value == Bool(item.ok) && f[4].value == item.data && f[5].value == item.pagination
            && f[6].value == item.error && f[7].value == Bool(item.timeout)
  {
  }

  lemma ScalarLengths(item: Item)
    ensures |Dump(Str(item.id))| == |EscapedText(item.id)| + 2 && |Dump(Str(item.tool))| == |EscapedText(item.tool)| + 2
    ensures |Dump(Str(item.collectedAt))| == |EscapedText(item.collectedAt)| + 2
    ensures |Dump(Bool(item.ok))| == (if item.ok then 4 else 5)
    ensures |Dump(Bool(item.timeout))| == (if item.timeout then 4 else 5)
  {
    hide EscapedText;
  }

  function TotalWeight(items: seq<Item>): nat {
    if items == [] then 0 else TotalWeight(items[..|items| - 1]) + Weight(items[|items| - 1])
  }

  lemma {:induction false} SerializedLength(items: seq<Item>)
    ensures |Serialize(items)| == if items == [] then 2 else TotalWeight(items)
  {
    var text := DumpItems(ItemsJson(items));
    assert Serialize(items) == "[" + text + "]";
    assert |Serialize(items)| == |text| + 2;
    if items != [] {
      var init, last := items[..|items| - 1], items[|items| - 1];
      assert ItemsJson(items) == ItemsJson(init) + [ItemJson(last)];
      DumpItemsAppend(ItemsJson(init), ItemJson(last));
      SerializedLength(init);
      assert |Serialize(init)| == |DumpItems(ItemsJson(init))| + 2;
    }
  }

  lemma {:induction false} TotalWeightAdds(a: seq<Item>, b: seq<Item>)
    ensures TotalWeight(a + b) == TotalWeight(a) + TotalWeight(b)
  {
    if b == [] {
      assert a + b == a;
    } else {
      assert (a + b)[..|a + b| - 1] == a + b[..|b| - 1];
      TotalWeightAdds(a, b[..|b| - 1]);
    }
  }

  // ----- what the result is worth -----

  /** Within budget exactly when an empty list's two brackets are; a budget of one character is the only overrun. */
  lemma FitStaysWithinBudget(evidence: seq<Item>, maxChars: int)
    requires maxChars > 0 && Fit(evidence, maxChars).Ok?
    ensures |Serialize(Fit(evidence, maxChars).value)| <= maxChars <==> maxChars >= 2
  {
    SerializedLength(Fit(evidence, maxChars).value);
    if maxChars >= 2 {
      SecondPassFits(evidence, maxChars);
    } else {
      var r := Fit(evidence, maxChars).value;
      if r != [] {
        assert TotalWeight(r) >= Weight(r[|r| - 1]) >= 2;
      }
    }
  }

  lemma {:induction false} SecondPassFits(evidence: seq<Item>, maxChars: int)
    requires maxChars >= 2
    ensures Fits(SecondPass(evidence, maxChars), maxChars)
  {
    if evidence == [] {
      SerializedLength([]);
    } else {
      SecondPassFits(evidence[..|evidence| - 1], maxChars);
    }
  }

  /** Fitting twice changes nothing more. */
  lemma FitIsIdempotent(evidence: seq<Item>, maxChars: int)
    requires Fit(evidence, maxChars).Ok?
    ensures Fit(Fit(evidence, maxChars).value, maxChars) == Fit(evidence, maxChars)
  {
    var r := Fit(evidence, maxChars).value;
    if maxChars >= 2 {
      FitStaysWithinBudget(evidence, maxChars);
    } else if maxChars == 1 {
      SerializedLength(evidence);
      SerializedLength(r);
      OneCharacterKeepsNothing(evidence);
      OneCharacterKeepsNothing(r);
    }
  }

  lemma OneCharacterKeepsNothing(evidence: seq<Item>)
    requires Fit(evidence, 1).Ok?
    ensures Fit(evidence, 1) == Ok([])
  {
    NothingFitsInOne(evidence);
    SecondPassInOne(evidence);
    match FirstPass(evidence, 1)
    case Ok(bounded) => NothingFitsInOne(bounded);
    case Err(_) =>
  }

  lemma NothingFitsInOne(items: seq<Item>)
    ensures !Fits(items, 1)
  {
    SerializedLength(items);
  }

  lemma {:induction false} SecondPassInOne(evidence: seq<Item>)
    ensures SecondPass(evidence, 1) == []
  {
    if evidence != [] {
      var item := evidence[|evidence| - 1];
      SecondPassInOne(evidence[..|evidence| - 1]);
      NothingFitsInOne([] + [Minimal(item)]);
      NothingFitsInOne([] + [Metadata(item)]);
    }
  }

  /** ks lists, in increasing order, the evidence positions that the result's items come from. */
  ghost predicate Embeds(r: seq<Item>, evidence: seq<Item>, ks: seq<nat>) {
    && |ks| == |r|
    && (forall i :: 0 <= i < |ks| ==> ks[i] < |evidence| && Metadata(r[i]) == Metadata(evidence[ks[i]]))
    && (forall i, j :: 0 <= i < j < |ks| ==> ks[i] < ks[j])
  }

  /** Putting the bare form of item k anywhere into r would break the budget. */
  ghost predicate NoRoomFor(r: seq<Item>, item: Item, maxChars: int) {
    forall p :: 0 <= p <= |r| ==> !Fits(r[..p] + [Metadata(item)] + r[p..], maxChars)
  }

  lemma NeverRoom(r: seq<Item>, item: Item, maxChars: int)
    requires maxChars <= 0
    ensures NoRoomFor(r, item, maxChars)
  {
    hide Serialize;
    forall p | 0 <= p <= |r| ensures !Fits(r[..p] + [Metadata(item)] + r[p..], maxChars) {
      NothingFitsInOne(r[..p] + [Metadata(item)] + r[p..]);
    }
  }

  /**
   * The result is an order-preserving selection of the evidence with only data changed,
   * and it is maximal: no dropped item could be put back even without its data.
   */
  lemma FitIsMaximalSelection(evidence: seq<Item>, maxChars: int) returns (ks: seq<nat>)
    requires Fit(evidence, maxChars).Ok?
    ensures Embeds(Fit(evidence, maxChars).value, evidence, ks)
    ensures forall k :: 0 <= k < |evidence| && k !in ks ==>
                        NoRoomFor(Fit(evidence, maxChars).value, evidence[k], maxChars)
  {
    ks := seq(|evidence|, i => i);
    if maxChars <= 0 {
      ks := [];
      forall k | 0 <= k < |evidence| ensures NoRoomFor([], evidence[k], maxChars) {
        NeverRoom([], evidence[k], maxChars);
      }
    } else if !Fits(evidence, maxChars) {
      var bounded := FirstPass(evidence, maxChars).value;
      FirstPassKeepsAll(evidence, maxChars);
      if !Fits(bounded, maxChars) {
        ks := SecondPassSelection(evidence, maxChars);
      }
    }
  }

  lemma {:induction false} FirstPassKeepsAll(evidence: seq<Item>, maxChars: int)
    requires FirstPass(evidence, maxChars).Ok?
    ensures var r := FirstPass(evidence, maxChars).value;
            |r| == |evidence| && forall i :: 0 <= i < |r| ==> Metadata(r[i]) == Metadata(evidence[i])
  {
    hide Fits, Clip, Get, Truthy, Stub;
    if evidence != [] {
      FirstPassKeepsAll(evidence[..|evidence| - 1], maxChars);
    }
  }

  lemma {:induction false} SecondPassSelection(evidence: seq<Item>, maxChars: int) returns (ks: seq<nat>)
    requires maxChars > 0
    ensures Embeds(SecondPass(evidence, maxChars), evidence, ks)
    ensures forall k :: 0 <= k < |evidence| && k !in ks ==>
                        NoRoomFor(SecondPass(evidence, maxChars), evidence[k], maxChars)
  {
    ks := [];
    if evidence != [] {
      var last := |evidence| - 1;
      var kept := SecondPass(evidence[..last], maxChars);
      var r := SecondPass(evidence, maxChars);
      ks := SecondPassSelection(evidence[..last], maxChars);
      forall k | 0 <= k < last && k !in ks ensures NoRoomFor(r, evidence[k], maxChars) {
        assert NoRoomFor(kept, evidence[..last][k], maxChars);
        NoRoomIsLasting(kept, r, evidence[k], maxChars);
      }
      if r == kept {
        NoRoomIsLasting(kept, kept, evidence[last], maxChars);
      } else {
        ks := ks + [last];
      }
    }
  }

  /** Only the total weight matters, so a place that did not exist stays missing as the list grows. */
  lemma NoRoomIsLasting(kept: seq<Item>, r: seq<Item>, item: Item, maxChars: int)
    requires kept <= r
    requires !Fits(kept + [Metadata(item)], maxChars) || NoRoomFor(kept, item, maxChars)
    ensures NoRoomFor(r, item, maxChars)
  {
    var bare := [Metadata(item)];
    assert kept[..|kept|] + bare + kept[|kept|..] == kept + bare;
    SerializedLength(kept + bare);
    TotalWeightAdds(kept, bare);
    TotalWeightAdds(kept, r[|kept|..]);
    assert kept + r[|kept|..] == r;
    forall p | 0 <= p <= |r| ensures !Fits(r[..p] + bare + r[p..], maxChars) {
      SerializedLength(r[..p] + bare + r[p..]);
      TotalWeightAdds(r[..p] + bare, r[p..]);
      TotalWeightAdds(r[..p], bare);
      TotalWeightAdds(r[..p], r[p..]);
      assert r[..p] + r[p..] == r;
    }
  }

  // ----- what becomes of each item -----

  /** The item with its data replaced by a marked preview. */
  function Noted(item: Item, preview: Json): Item {
    item.(data := Obj([Field("truncated", Bool(true)), Field("preview", preview)]))
  }

  /** At most the first hundred characters or entries; something that counts as empty becomes empty text. */
  ghost predicate IsCut(cut: Json, preview: Json) {
    if !Truthy(preview) then cut == Str("")
    else
      || (preview.Str? && cut.Str? && cut.s <= preview.s && |cut.s| == if |preview.s| < 100 then |preview.s| else 100)
      || (preview.Arr? && cut.Arr? && cut.items <= preview.items &&
          |cut.items| == if |preview.items| < 100 then |preview.items| else 100)
  }

  /**
   * What the first pass makes of an item after the items kept so far: the item itself if it fits; else, for data
   * already marked truncated, its own preview, or the cut preview if that does not fit; for a dict or list a
   * count of its entries if that fits; the item itself otherwise.
   */
  ghost predicate Reduces(kept: seq<Item>, item: Item, r: Item, maxChars: int) {
    var data := item.data;
    var preview := Get(data, "preview", Str(""));
    if data == Null || Fits(kept + [item], maxChars) then r == item
    else if data.Obj? && Truthy(Get(data, "truncated", Null)) then
      if Fits(kept + [Noted(item, preview)], maxChars) then r == Noted(item, preview)
      else exists cut :: IsCut(cut, preview) && r == Noted(item, cut)
    else if data.Obj? && Fits(kept + [Noted(item, Str(Decimal(|data.fields|) + " fields truncated"))], maxChars) then
      r == Noted(item, Str(Decimal(|data.fields|) + " fields truncated"))
    else if data.Arr? && Fits(kept + [Noted(item, Str(Decimal(|data.items|) + " rows truncated"))], maxChars) then
      r == Noted(item, Str(Decimal(|data.items|) + " rows truncated"))
    else r == item
  }

  /** Every item is reduced after the reduced items before it. */
  ghost predicate ReducesAll(evidence: seq<Item>, r: seq<Item>, maxChars: int) {
    |r| == |evidence| && forall k :: 0 <= k < |r| ==> Reduces(r[..k], evidence[k], r[k], maxChars)
  }

  /**
   * places[k] counts the items kept before item k, which is kept with a fixed note if that fits after them, else
   * without data if that fits, else dropped.
   */
  ghost predicate StripsAll(evidence: seq<Item>, r: seq<Item>, places: seq<nat>, maxChars: int) {
    && |places| == |evidence| + 1 && places[0] == 0 && places[|evidence|] == |r|
    && forall k :: 0 <= k < |evidence| ==>
         places[k] <= |r| && Strips(evidence[k], r, places[k], places[k + 1], maxChars)
  }

  ghost predicate Strips(item: Item, r: seq<Item>, place: nat, next: nat, maxChars: int)
    requires place <= |r|
  {
    var noted, bare := Noted(item, Str("data truncated due to budget")), item.(data := Null);
    if Fits(r[..place] + [noted], maxChars) then place < |r| && next == place + 1 && r[place] == noted
    else if Fits(r[..place] + [bare], maxChars) then place < |r| && next == place + 1 && r[place] == bare
    else next == place
  }

  /**
   * The result item by item: nothing for an empty budget; the evidence itself if it fits; else the reduced list
   * if that fits; else the stripped list.
   */
  ghost predicate Decides(evidence: seq<Item>, r: seq<Item>, maxChars: int) {
    if maxChars <= 0 then r == []
    else if Fits(evidence, maxChars) then r == evidence
    else exists reduced: seq<Item> ::
      && ReducesAll(evidence, reduced, maxChars)
      && if Fits(reduced, maxChars) then r == reduced
         else exists places: seq<nat> :: StripsAll(evidence, r, places, maxChars)
  }

  lemma FitDecides(evidence: seq<Item>, maxChars: int)
    requires Fit(evidence, maxChars).Ok?
    ensures Decides(evidence, Fit(evidence, maxChars).value, maxChars)
  {
    hide Fits, ReducesAll, StripsAll;
    if maxChars > 0 && !Fits(evidence, maxChars) {
      FirstPassReduces(evidence, maxChars);
      var reduced := FirstPass(evidence, maxChars).value;
      assert ReducesAll(evidence, reduced, maxChars);
      if !Fits(reduced, maxChars) {
        var places := SecondPassStrips(evidence, maxChars);
      }
    }
  }

  lemma ShrinkReduces(kept: seq<Item>, item: Item, maxChars: int)
    requires Shrink(kept, item, maxChars).Ok?
    ensures Reduces(kept, item, Shrink(kept, item, maxChars).value, maxChars)
  {
    hide Fits;
    var preview := Get(item.data, "preview", Str(""));
    assert forall p :: item.(data := Stub(p)) == Noted(item, p);
    if Clip(preview).Ok? {
      assert IsCut(Clip(preview).value, preview);
    }
  }

  lemma {:induction false} FirstPassReduces(evidence: seq<Item>, maxChars: int)
    requires FirstPass(evidence, maxChars).Ok?
    ensures ReducesAll(evidence, FirstPass(evidence, maxChars).value, maxChars)
  {
    hide Fits, Shrink, Reduces;
    if evidence != [] {
      var last := |evidence| - 1;
      FirstPassReduces(evidence[..last], maxChars);
      var kept, r := FirstPass(evidence[..last], maxChars).value, FirstPass(evidence, maxChars).value;
      ShrinkReduces(kept, evidence[last], maxChars);
      forall k | 0 <= k < |r| ensures Reduces(r[..k], evidence[k], r[k], maxChars) {
        assert k < last ==> r[..k] == kept[..k] && r[k] == kept[k] && evidence[..last][k] == evidence[k];
        assert r[..last] == kept;
      }
    }
  }

  lemma {:induction false} SecondPassStrips(evidence: seq<Item>, maxChars: int) returns (places: seq<nat>)
    ensures StripsAll(evidence, SecondPass(evidence, maxChars), places, maxChars)
  {
    hide Fits;
    places := [0];
    if evidence != [] {
      var last := |evidence| - 1;
      var kept, r := SecondPass(evidence[..last], maxChars), SecondPass(evidence, maxChars);
      places := SecondPassStrips(evidence[..last], maxChars);
      assert Minimal(evidence[last]) == Noted(evidence[last], Str("data truncated due to budget"));
      hide Minimal, Noted, Stub;
      forall k | 0 <= k < last ensures places[k] <= |r| && Strips(evidence[k], r, places[k], places[k + 1], maxChars) {
        assert Strips(evidence[..last][k], kept, places[k], places[k + 1], maxChars);
        assert r[..places[k]] == kept[..places[k]];
      }
      assert r[..|kept|] == kept;
      places := places + [|r|];
    }
  }

  predicate Marked(item: Item) {
    item.data.Null? || Get(item.data, "truncated", Null) == Bool(true)
  }

  /** Every item kept has its own data, none, or a stub that says it was truncated. */
  lemma KeptDataIsOriginalOrMarked(evidence: seq<Item>, maxChars: int, item: Item)
    requires Fit(evidence, maxChars).Ok? && item in Fit(evidence, maxChars).value
    ensures item in evidence || Marked(item)
  {
    hide Fits;
    if FirstPass(evidence, maxChars).Ok? {
      FirstPassMarks(evidence, maxChars);
    }
    SecondPassMarks(evidence, maxChars);
  }

  lemma {:induction false} FirstPassMarks(evidence: seq<Item>, maxChars: int)
    requires FirstPass(evidence, maxChars).Ok?
    ensures forall item :: item in FirstPass(evidence, maxChars).value ==> item in evidence || Marked(item)
  {
    hide Fits;
    if evidence != [] {
      FirstPassMarks(evidence[..|evidence| - 1], maxChars);
    }
  }

  lemma {:induction false} SecondPassMarks(evidence: seq<Item>, maxChars: int)
    ensures forall item :: item in SecondPass(evidence, maxChars) ==> Marked(item)
  {
    hide Fits;
    if evidence != [] {
      SecondPassMarks(evidence[..|evidence| - 1], maxChars);
    }
  }

  /** Evidence comes back untouched exactly when it fits as it is, or there is none. */
  lemma UntouchedExactlyWhenItFits(evidence: seq<Item>, maxChars: int)
    ensures Fit(evidence, maxChars) == Ok(evidence) <==> Fits(evidence, maxChars) || evidence == []
  {
    if maxChars >= 2 {
      SerializedLength([]);
      hide Fits, FirstPass, SecondPass;
      if Fit(evidence, maxChars).Ok? {
        WithinBudget(evidence, maxChars);
      }
    } else {
      NothingFitsInOne(evidence);
      if maxChars == 1 && Fit(evidence, 1).Ok? {
        OneCharacterKeepsNothing(evidence);
      }
    }
  }

  lemma WithinBudget(evidence: seq<Item>, maxChars: int)
    requires maxChars >= 2 && Fit(evidence, maxChars).Ok?
    ensures Fits(Fit(evidence, maxChars).value, maxChars)
  {
    FitStaysWithinBudget(evidence, maxChars);
  }

  /** Item k's preview cannot be cut, and nothing longer than the cut fits after the items before it. */
  predicate Uncuttable(evidence: seq<Item>, k: nat, maxChars: int)
    requires k < |evidence|
  {
    var data := evidence[k].data;
    && WasTruncated(data)
    && Clip(Get(data, "preview", Str(""))).Err?
    && match FirstPass(evidence[..k], maxChars)
       case Err(_) => false
       case Ok(kept) =>
         && !Fits(kept + [evidence[k]], maxChars)
         && !Fits(kept + [evidence[k].(data := Stub(Get(data, "preview", Str(""))))], maxChars)
  }

  /** The call raises exactly when the evidence is over budget and some truncated item's preview cannot be cut. */
  lemma FitRaisesExactlyWhen(evidence: seq<Item>, maxChars: int)
    ensures Fit(evidence, maxChars).Err? <==>
            && maxChars > 0
            && !Fits(evidence, maxChars)
            && exists k :: 0 <= k < |evidence| && Uncuttable(evidence, k, maxChars)
  {
    FirstPassRaisesExactlyWhen(evidence, maxChars);
  }

  lemma {:induction false} FirstPassRaisesExactlyWhen(evidence: seq<Item>, maxChars: int)
    ensures FirstPass(evidence, maxChars).Err? <==>
            exists k :: 0 <= k < |evidence| && Uncuttable(evidence, k, maxChars)
  {
    if evidence != [] {
      var last := |evidence| - 1;
      var init := evidence[..last];
      FirstPassRaisesExactlyWhen(init, maxChars);
      forall k | 0 <= k < last ensures Uncuttable(evidence, k, maxChars) == Uncuttable(init, k, maxChars) {
        assert init[..k] == evidence[..k];
      }
      if FirstPass(evidence, maxChars).Err? && FirstPass(init, maxChars).Ok? {
        assert Uncuttable(evidence, last, maxChars);
      } else if FirstPass(init, maxChars).Err? {
        var k :| 0 <= k < last && Uncuttable(init, k, maxChars);
        assert Uncuttable(evidence, k, maxChars);
      }
    }
  }

  /** The preview of a truncated item can be cut: it is text, a list, or counts as empty. */
  predicate Sliceable(item: Item) {
    WasTruncated(item.data) ==> Clip(Get(item.data, "preview", Str(""))).Ok?
  }

  lemma NothingFitsInTwo(items: seq<Item>)
    requires items != []
    ensures !Fits(items, 2)
  {
    SerializedLength(items);
    var last := items[|items| - 1];
    assert Dump(ItemJson(last))[0] == '{';
    assert TotalWeight(items) >= Weight(last) > 2;
  }

  /** The tightest budget there is raises as soon as one preview cannot be sliced. */
  lemma UnsliceableRaises(evidence: seq<Item>, k: nat)
    requires k < |evidence| && !Sliceable(evidence[k])
    ensures Fit(evidence, 2).Err?
  {
    hide Fits, Sliceable, Clip, WasTruncated;
    NothingFitsInTwo(evidence);
    if FirstPass(evidence[..k], 2).Err? {
      FirstPassErrorPersists(evidence, k, 2);
    } else {
      StuckAt(evidence, k);
      FitRaisesExactlyWhen(evidence, 2);
    }
  }

  lemma StuckAt(evidence: seq<Item>, k: nat)
    requires k < |evidence| && !Sliceable(evidence[k]) && FirstPass(evidence[..k], 2).Ok?
    ensures Uncuttable(evidence, k, 2)
  {
    hide Fits, Clip;
    var kept, data := FirstPass(evidence[..k], 2).value, evidence[k].data;
    NothingFitsInTwo(kept + [evidence[k]]);
    NothingFitsInTwo(kept + [evidence[k].(data := Stub(Get(data, "preview", Str(""))))]);
  }

  /**
   * A caller's check: evidence never raises, whatever the budget, exactly when every truncated preview can be
   * sliced.
   */
  lemma NeverRaisesExactlyWhen(evidence: seq<Item>)
    ensures (forall m: int :: Fit(evidence, m).Ok?) <==> (forall item :: item in evidence ==> Sliceable(item))
  {
    hide Fit, Fits, Sliceable, FirstPass;
    if forall item :: item in evidence ==> Sliceable(item) {
      forall m: int ensures Fit(evidence, m).Ok? {
        FitRaisesExactlyWhen(evidence, m);
        forall k | 0 <= k < |evidence| ensures !Uncuttable(evidence, k, m) {
          CuttableIfSliceable(evidence, k, m);
        }
      }
    } else {
      var item :| item in evidence && !Sliceable(item);
      var k :| 0 <= k < |evidence| && evidence[k] == item;
      UnsliceableRaises(evidence, k);
    }
  }

  lemma CuttableIfSliceable(evidence: seq<Item>, k: nat, maxChars: int)
    requires k < |evidence| && Sliceable(evidence[k])
    ensures !Uncuttable(evidence, k, maxChars)
  {
    hide Fits, Clip, FirstPass;
  }

  /** Evidence that raises: a dict as preview has a length but cannot be sliced. */
  lemma DictPreviewRaises(item: Item, fields: seq<Field>)
    requires item.data == Obj([Field("truncated", Bool(true)), Field("preview", Obj(fields))]) && fields != []
    ensures Fit([item], 2).Err?
  {
    assert "truncated"[0] == 't' && "preview"[0] == 'p';
    LookupFinds(item.data.fields, "truncated", Null, 0);
    LookupFinds(item.data.fields, "preview", Str(""), 1);
    UnsliceableRaises([item], 0);
  }

  /** Evidence that raises: data marked with something other than True, with a number as preview. */
  lemma NumberPreviewRaises(item: Item)
    requires item.data == Obj([Field("truncated", Num(1)), Field("preview", Num(5))])
    ensures Fit([item], 2).Err?
  {
    assert "truncated"[0] == 't' && "preview"[0] == 'p';
    LookupFinds(item.data.fields, "truncated", Null, 0);
    LookupFinds(item.data.fields, "preview", Str(""), 1);
    UnsliceableRaises([item], 0);
  }

  /** A caller's check: evidence whose truncated previews are text always fits without raising. */
  lemma TextPreviewsNeverRaise(evidence: seq<Item>, maxChars: int)
    requires forall item :: item in evidence && WasTruncated(item.data) ==>
                            Get(item.data, "preview", Str("")).Str?
    ensures Fit(evidence, maxChars).Ok?
  {
    FitRaisesExactlyWhen(evidence, maxChars);
  }

  // ----- evidence that is dropped altogether -----

  lemma {:induction false} FieldsHoldValue(fields: seq<Field>, i: nat)
    requires i < |fields|
    ensures |DumpFields(fields)| >= |Dump(fields[i].value)|
    decreases i
  {
    if i > 0 {
      FieldsHoldValue(fields[1..], i - 1);
    }
  }

  /** An item whose pagination alone is over the budget cannot be kept in any form. */
  lemma TooLongIsDropped(item: Item, maxChars: int)
    requires |Dump(item.pagination)| > maxChars && Fit([item], maxChars).Ok?
    ensures Fit([item], maxChars) == Ok([])
  {
    if maxChars > 0 {
      PaginationCounts(item, maxChars);
      PaginationCounts(Minimal(item), maxChars);
      PaginationCounts(Metadata(item), maxChars);
      FirstPassKeepsAll([item], maxChars);
      var bounded := FirstPass([item], maxChars).value;
      assert bounded == [bounded[0]];
      PaginationCounts(bounded[0], maxChars);
      hide Fits;
      assert [item][..0] == [];
      assert SecondPass([], maxChars) == [];
      assert [] + [Minimal(item)] == [Minimal(item)] && [] + [Metadata(item)] == [Metadata(item)];
      assert SecondPass([item], maxChars) == [];
    }
  }

  lemma PaginationCounts(item: Item, maxChars: int)
    requires |Dump(item.pagination)| > maxChars
    ensures !Fits([item], maxChars)
  {
    var fields := ItemJson(item).fields;
    assert fields[5].value == item.pagination;
    FieldsHoldValue(fields, 5);
    hide Dump, DumpFields;
    SerializedLength([item]);
    assert TotalWeight([item]) == TotalWeight([item][..0]) + Weight(item);
    ItemTextLength(item);
  }

  lemma ItemTextLength(item: Item)
    ensures |Dump(ItemJson(item))| == |DumpFields(ItemJson(item).fields)| + 2
  {
    hide DumpFields, Quoted, ItemJson;
    assert ItemJson(item).Obj? by { ItemIsObject(item); }
  }

  lemma ItemIsObject(item: Item)
    ensures ItemJson(item).Obj?
  {
  }
}
