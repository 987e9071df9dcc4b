/** The logic of the captures table: how one capture becomes a row of cells,
    which sort order a click on a column header selects, the id-to-name
    lookups built from the species and tag lists, and the grouping of
    capture-tag records by capture. */
module CaptureTable {
  import opened JsValues

  /** A capture as the server sends it: a plain object. */
  type Capture = Object

  /** The `type` of a `LinkToWebmap` element: 'tree' or 'user'. */
  datatype LinkType = Tree | User

  /** What a table cell shows: a link into the web map, or a value as text. */
  datatype Cell = WebmapLink(value: Value, linkType: LinkType) | Text(v: Value)

  const Placeholder: Value := Str("--")
  const TagSeparator: string := ", "

  /** The two labels of `tokenizationStates`, defined elsewhere in the app. */
  datatype TokenizationStates = TokenizationStates(tokenized: Value, notTokenized: Value)

  /** One entry of the `columns` table; an absent `noSort` reads as false. */
  datatype Column = Column(attr: string, title: string, noSort: bool, renderer: Option<Value -> Value>)

  // ---------------------------------------------------------------------------
  // Cell formatting

  /** The renderer of the token column. */
  function TokenStatus(states: TokenizationStates, v: Value): (r: Value)
    ensures states.tokenized != states.notTokenized ==> (r == states.tokenized <==> Truthy(v))
    ensures r == states.tokenized || r == states.notTokenized
  {
    if Truthy(v) then states.tokenized else states.notTokenized
  }

  /** The column table; `dateTimeLocale` stands for `getDateTimeStringLocale`. */
  function Columns(states: TokenizationStates, dateTimeLocale: Value -> Value): seq<Column>
  {
    [ Column("id", "Capture ID", false, None),
      Column("planterId", "Grower ID", false, None),
      Column("deviceIdentifier", "Device Identifier", false, Some((v: Value) => v)),
      Column("planterIdentifier", "Planter Identifier", false, Some((v: Value) => v)),
      Column("verificationStatus", "Verification Status", true, Some((v: Value) => v)),
      Column("speciesId", "Species", true, Some((v: Value) => v)),
      Column("tokenId", "Token Status", false, Some((v: Value) => TokenStatus(states, v))),
      Column("captureTags", "Capture Tags", true, None),
      Column("timeCreated", "Created", false, Some(dateTimeLocale)) ]
  }

  /** The entries of the column attributes in table order. */
  function Attrs(columns: seq<Column>): (r: seq<string>)
    ensures |r| == |columns|
    ensures forall i :: 0 <= i < |columns| ==> r[i] == columns[i].attr
  {
    if columns == [] then [] else [columns[0].attr] + Attrs(columns[1..])
  }

  /** The column table has nine columns in a fixed order; only the
      verification status, species and capture tags columns cannot be
      sorted, and the token column shows one of the two token labels. */
  lemma ColumnLayout(states: TokenizationStates, dateTimeLocale: Value -> Value, v: Value)
    ensures var cs := Columns(states, dateTimeLocale);
      && Attrs(cs) == ["id", "planterId", "deviceIdentifier", "planterIdentifier",
                       "verificationStatus", "speciesId", "tokenId", "captureTags", "timeCreated"]
      && (forall i :: 0 <= i < |cs| ==> (cs[i].noSort <==> cs[i].attr in {"verificationStatus", "speciesId", "captureTags"}))
      && cs[6].renderer.Some?
      && cs[6].renderer.value(v) == TokenStatus(states, v)
  {
    var cs := Columns(states, dateTimeLocale);
    assert cs[6].renderer.value(v) == TokenStatus(states, v);
  }

  /** `array.filter((tag) => tag !== null)`: only `null` is dropped. */
  function NonNull(xs: seq<Value>): (r: seq<Value>)
    ensures |r| <= |xs|
    ensures forall v :: v in r <==> v in xs && v != Null
  {
    if xs == [] then []
    else
      (if xs[0] == Null then [] else [xs[0]]) + NonNull(xs[1..])
  }

  /** The filter keeps every non-null entry as often as it occurs. */
  lemma {:induction false} NonNullMultiset(xs: seq<Value>)
    ensures multiset(NonNull(xs)) == multiset(xs)[Null := 0]
  {
    if xs != [] {
      assert xs == [xs[0]] + xs[1..];
      NonNullMultiset(xs[1..]);
    }
  }

  /** Filtering commutes with concatenation, so the kept entries stay in order. */
  lemma {:induction false} NonNullAppend(xs: seq<Value>, ys: seq<Value>)
    ensures NonNull(xs + ys) == NonNull(xs) + NonNull(ys)
  {
    if xs == [] {
      assert xs + ys == ys;
    } else {
      assert (xs + ys)[0] == xs[0];
      assert (xs + ys)[1..] == xs[1..] + ys;
      NonNullAppend(xs[1..], ys);
    }
  }

  /** The entries of the capture tags column, before nulls are dropped. */
  function TagEntries(capture: Capture, additionalTags: seq<Value>): (r: seq<Value>)
    ensures |r| == 4 + |additionalTags|
    ensures r[..4] == [Get(capture, "age"), Get(capture, "morphology"),
                       Get(capture, "captureApprovalTag"), Get(capture, "rejectionReason")]
    ensures r[4..] == additionalTags
  {
    [Get(capture, "age"), Get(capture, "morphology"),
     Get(capture, "captureApprovalTag"), Get(capture, "rejectionReason")] + additionalTags
  }

  /** The text of the capture tags column. */
  function CaptureTagsText(capture: Capture, additionalTags: seq<Value>): string
  {
    ArrayJoin(NonNull(TagEntries(capture, additionalTags)), TagSeparator)
  }

  /** `formatCell(capture, speciesLookup, additionalTags, attr, renderer)`;
      `verificationStatus` stands for `getVerificationStatus`. */
  function FormatCell(capture: Capture, speciesLookup: Object, additionalTags: seq<Value>,
                      attr: string, renderer: Option<Value -> Value>,
                      verificationStatus: (Value, Value) -> Value): (c: Cell)
    ensures c.WebmapLink? <==> attr == "id" || attr == "planterId"
    ensures c.WebmapLink? ==> c.value == Get(capture, attr) && (c.linkType == Tree <==> attr == "id")
  {
    if attr == "id" || attr == "planterId" then
      WebmapLink(Get(capture, attr), if attr == "id" then Tree else User)
    else if attr == "speciesId" then
      var v := Get(capture, attr);
      Text(if v == Null then Placeholder else Get(speciesLookup, ToString(v)))
    else if attr == "verificationStatus" then
      var active, approved := Get(capture, "active"), Get(capture, "approved");
      Text(if active == Null || approved == Null then Placeholder else verificationStatus(active, approved))
    else if attr == "captureTags" then
      Text(Str(CaptureTagsText(capture, additionalTags)))
    else
      var v := Get(capture, attr);
      Text(if renderer.Some? then renderer.value(v) else v)
  }

  /** The species cell shows the placeholder exactly when the species id is
      null or the lookup names that species "--"; otherwise the looked-up
      name (undefined when the id is not in the lookup). */
  lemma SpeciesCell(capture: Capture, speciesLookup: Object, tags: seq<Value>,
                    renderer: Option<Value -> Value>, status: (Value, Value) -> Value)
    ensures var v := Get(capture, "speciesId");
      var c := FormatCell(capture, speciesLookup, tags, "speciesId", renderer, status);
      && (c == Text(Placeholder) <==> v == Null || Get(speciesLookup, ToString(v)) == Placeholder)
      && (v != Null ==> c == Text(Get(speciesLookup, ToString(v))))
  {
  }

  /** A null `active` or `approved` gives the placeholder whatever the other
      field holds; otherwise the status of the pair. A missing field reads as
      undefined, which is not null. */
  lemma VerificationCell(capture: Capture, speciesLookup: Object, tags: seq<Value>,
                         renderer: Option<Value -> Value>, status: (Value, Value) -> Value)
    ensures var active, approved := Get(capture, "active"), Get(capture, "approved");
      var c := FormatCell(capture, speciesLookup, tags, "verificationStatus", renderer, status);
      && (active == Null || approved == Null ==> c == Text(Placeholder))
      && (active != Null && approved != Null ==> c == Text(status(active, approved)))
  {
  }

  /** Columns other than the five special ones apply their renderer, or show
      the raw value when there is none. */
  lemma RendererCell(capture: Capture, speciesLookup: Object, tags: seq<Value>, attr: string,
                     renderer: Option<Value -> Value>, status: (Value, Value) -> Value)
    requires attr !in {"id", "planterId", "speciesId", "verificationStatus", "captureTags"}
    ensures FormatCell(capture, speciesLookup, tags, attr, renderer, status)
         == Text(if renderer.Some? then renderer.value(Get(capture, attr)) else Get(capture, attr))
  {
  }

  /** The token column of the table shows the tokenized label exactly when
      the capture's `tokenId` is truthy. */
  lemma TokenCell(capture: Capture, speciesLookup: Object, tags: seq<Value>,
                  states: TokenizationStates, dateTimeLocale: Value -> Value,
                  status: (Value, Value) -> Value)
    requires states.tokenized != states.notTokenized
    ensures var col := Columns(states, dateTimeLocale)[6];
      && col.attr == "tokenId"
      && (FormatCell(capture, speciesLookup, tags, col.attr, col.renderer, status) == Text(states.tokenized)
          <==> Truthy(Get(capture, "tokenId")))
  {
    var col := Columns(states, dateTimeLocale)[6];
    assert col.renderer.value(Get(capture, "tokenId")) == TokenStatus(states, Get(capture, "tokenId"));
  }

  /** Splitting the capture tags cell at ", " gives back the text of every
      non-null entry, in order, when no entry's text contains a comma;
      an undefined entry becomes an empty piece. */
  lemma {:induction false} CaptureTagsCell(capture: Capture, speciesLookup: Object, tags: seq<Value>,
                                           renderer: Option<Value -> Value>, status: (Value, Value) -> Value)
    requires NonNull(TagEntries(capture, tags)) != []
    requires forall v :: v in TagEntries(capture, tags) ==> ',' !in JoinText(v)
    ensures var c := FormatCell(capture, speciesLookup, tags, "captureTags", renderer, status);
      && c.Text? && c.v.Str?
      && Split(c.v.s, TagSeparator) == Texts(NonNull(TagEntries(capture, tags)))
  {
    var kept := NonNull(TagEntries(capture, tags));
    var parts := Texts(kept);
    assert FormatCell(capture, speciesLookup, tags, "captureTags", renderer, status)
        == Text(Str(Join(parts, TagSeparator)));
    forall k | 0 <= k < |parts| ensures TagSeparator[0] !in parts[k] {
      assert kept[k] in kept;
    }
    SplitJoin(parts, TagSeparator);
  }

  /** The capture tags cell joins the non-null descriptive fields, in the
      order age, morphology, approval tag, rejection reason, followed by the
      non-null tags. */
  lemma CaptureTagsCellText(capture: Capture, speciesLookup: Object, tags: seq<Value>,
                             renderer: Option<Value -> Value>, status: (Value, Value) -> Value)
    ensures var fields := [Get(capture, "age"), Get(capture, "morphology"),
                           Get(capture, "captureApprovalTag"), Get(capture, "rejectionReason")];
      FormatCell(capture, speciesLookup, tags, "captureTags", renderer, status)
        == Text(Str(ArrayJoin(NonNull(fields) + NonNull(tags), TagSeparator)))
  {
    var fields := [Get(capture, "age"), Get(capture, "morphology"),
                   Get(capture, "captureApprovalTag"), Get(capture, "rejectionReason")];
    assert TagEntries(capture, tags) == fields + tags;
    NonNullAppend(fields, tags);
  }

  /** Example: age "Young", no morphology, approval tag "Good", no
      rejection reason and the tag "Canopy". */
  lemma CaptureTagsExample(speciesLookup: Object, renderer: Option<Value -> Value>,
                           status: (Value, Value) -> Value)
    ensures var capture := map["age" := Str("Young"), "morphology" := Null,
                               "captureApprovalTag" := Str("Good"), "rejectionReason" := Null];
      FormatCell(capture, speciesLookup, [Str("Canopy")], "captureTags", renderer, status)
        == Text(Str("Young, Good, Canopy"))
  {
    var capture := map["age" := Str("Young"), "morphology" := Null,
                       "captureApprovalTag" := Str("Good"), "rejectionReason" := Null];
    var entries := [Str("Young"), Null, Str("Good"), Null, Str("Canopy")];
    CaptureTagsCellText(capture, speciesLookup, [Str("Canopy")], renderer, status);
    assert TagEntries(capture, [Str("Canopy")]) == entries;
    var kept := [Str("Young"), Str("Good"), Str("Canopy")];
    NonNullExample(entries, kept);
    JoinExample();
  }

  lemma NonNullExample(entries: seq<Value>, kept: seq<Value>)
    requires entries == [Str("Young"), Null, Str("Good"), Null, Str("Canopy")]
    requires kept == [Str("Young"), Str("Good"), Str("Canopy")]
    ensures NonNull(entries) == kept
  {
    NonNullSingle(Str("Young"));
    NonNullSingle(Null);
    NonNullSingle(Str("Good"));
    NonNullSingle(Str("Canopy"));
    NonNullAppend([Null], [Str("Canopy")]);
    NonNullAppend([Str("Good")], [Null] + [Str("Canopy")]);
    NonNullAppend([Null], [Str("Good")] + [Null] + [Str("Canopy")]);
    NonNullAppend([Str("Young")], [Null] + [Str("Good")] + [Null] + [Str("Canopy")]);
    assert entries == [Str("Young")] + ([Null] + ([Str("Good")] + ([Null] + [Str("Canopy")])));
  }

  lemma NonNullSingle(v: Value)
    ensures NonNull([v]) == if v == Null then [] else [v]
  {
    assert [v][1..] == [];
  }

  lemma JoinExample()
    ensures ArrayJoin([Str("Young"), Str("Good"), Str("Canopy")], TagSeparator) == "Young, Good, Canopy"
  {
    assert Texts([Str("Young"), Str("Good"), Str("Canopy")]) == ["Young", "Good", "Canopy"];
    assert Join(["Canopy"], TagSeparator) == "Canopy";
    assert Join(["Good", "Canopy"], TagSeparator) == "Good, Canopy";
  }

  /** Fields the capture lacks are undefined, which the filter keeps: a
      capture with no descriptive fields and no tags gives three separators. */
  lemma MissingFieldsSurvive(speciesLookup: Object, renderer: Option<Value -> Value>,
                             status: (Value, Value) -> Value)
    ensures FormatCell(map[], speciesLookup, [], "captureTags", renderer, status) == Text(Str(", , , "))
  {
    var entries := [Undefined, Undefined, Undefined, Undefined];
    CaptureTagsCellText(map[], speciesLookup, [], renderer, status);
    assert TagEntries(map[], []) == entries;
    NonNullSingle(Undefined);
    NonNullAppend([Undefined], [Undefined]);
    NonNullAppend([Undefined], [Undefined, Undefined]);
    NonNullAppend([Undefined], [Undefined, Undefined, Undefined]);
    assert NonNull(entries) == entries;
    assert Texts(entries) == ["", "", "", ""];
    assert Join([""], TagSeparator) == "";
    assert Join(["", ""], TagSeparator) == ", ";
    assert Join(["", "", ""], TagSeparator) == ", , ";
    assert Join(["", "", "", ""], TagSeparator) == ", , , ";
  }

  /** The tags joined to a capture: `captureTagLookup[capture.id] || []`. */
  function TagsFor(captureTagLookup: map<string, seq<Value>>, capture: Capture): seq<Value>
  {
    var key := ToString(Get(capture, "id"));
    if key in captureTagLookup then captureTagLookup[key] else []
  }

  /** One table row: a cell per column, in column order. */
  function RenderRow(capture: Capture, columns: seq<Column>, speciesLookup: Object,
                     captureTagLookup: map<string, seq<Value>>,
                     status: (Value, Value) -> Value): (r: seq<Cell>)
    ensures |r| == |columns|
    ensures forall i :: 0 <= i < |columns| ==>
      r[i] == FormatCell(capture, speciesLookup, TagsFor(captureTagLookup, capture),
                         columns[i].attr, columns[i].renderer, status)
  {
    if columns == [] then []
    else
      [FormatCell(capture, speciesLookup, TagsFor(captureTagLookup, capture),
                  columns[0].attr, columns[0].renderer, status)]
      + RenderRow(capture, columns[1..], speciesLookup, captureTagLookup, status)
  }

  // ---------------------------------------------------------------------------
  // Sorting

  datatype Order = Asc | Desc

  /** The sort state the captures context holds. */
  datatype SortState = SortState(order: Order, orderBy: string)

  function Flip(o: Order): Order
  {
    if o == Asc then Desc else Asc
  }

  /** The click handler of a column header. */
  function NextSort(s: SortState, attr: string): (r: SortState)
    ensures r.orderBy == attr
    ensures r.order == Desc <==> s.orderBy == attr && s.order == Asc
  {
    SortState(if s.orderBy == attr && s.order == Asc then Desc else Asc, attr)
  }

  /** Clicking the sorted column flips its order; two clicks restore it. */
  lemma SortToggle(o: Order, attr: string)
    ensures NextSort(SortState(o, attr), attr) == SortState(Flip(o), attr)
    ensures NextSort(NextSort(SortState(o, attr), attr), attr) == SortState(o, attr)
  {
  }

  /** Clicking any other column sorts it ascending. */
  lemma SortNewColumn(s: SortState, attr: string)
    requires s.orderBy != attr
    ensures NextSort(s, attr) == SortState(Asc, attr)
  {
  }

  // ---------------------------------------------------------------------------
  // Lookups

  /** The property keys the `id`s of `list` become. */
  function IdKeys(list: seq<Object>): set<string>
  {
    set i | 0 <= i < |list| :: ToString(Get(list[i], "id"))
  }

  /** The `nameField` of the last entry of `list` whose id has key `k`. */
  function LastName(list: seq<Object>, nameField: string, k: string): Value
    requires k in IdKeys(list)
  {
    var last := list[|list| - 1];
    if ToString(Get(last, "id")) == k then Get(last, nameField)
    else
      assert k in IdKeys(list[..|list| - 1]) by {
        var i :| 0 <= i < |list| && ToString(Get(list[i], "id")) == k;
        assert list[..|list| - 1][i] == list[i];
      }
      LastName(list[..|list| - 1], nameField, k)
  }

  /** The lookup from each id of `list` to the name its last entry gives. */
  function LookupOf(list: seq<Object>, nameField: string): (m: Object)
    ensures m.Keys == IdKeys(list)
  {
    map k | k in IdKeys(list) :: LastName(list, nameField, k)
  }

  /** An entry with no later entry of the same id determines the lookup's value. */
  lemma {:induction false} LastEntryWins(list: seq<Object>, nameField: string, j: nat)
    requires j < |list|
    requires forall l :: j < l < |list| ==> ToString(Get(list[l], "id")) != ToString(Get(list[j], "id"))
    ensures var k := ToString(Get(list[j], "id"));
      k in LookupOf(list, nameField) && LookupOf(list, nameField)[k] == Get(list[j], nameField)
  {
    var k := ToString(Get(list[j], "id"));
    assert k in IdKeys(list);
    if j < |list| - 1 {
      var init := list[..|list| - 1];
      assert init[j] == list[j];
      forall l | j < l < |init| ensures ToString(Get(init[l], "id")) != k {
        assert init[l] == list[l];
      }
      LastEntryWins(init, nameField, j);
    }
  }

  lemma LookupOfSnoc(list: seq<Object>, nameField: string, e: Object)
    ensures LookupOf(list + [e], nameField)
         == LookupOf(list, nameField)[ToString(Get(e, "id")) := Get(e, nameField)]
  {
    var l2 := list + [e];
    assert l2[..|l2| - 1] == list;
    assert IdKeys(l2) == IdKeys(list) + {ToString(Get(e, "id"))} by {
      forall k | k in IdKeys(l2) ensures k in IdKeys(list) + {ToString(Get(e, "id"))} {
        var i :| 0 <= i < |l2| && ToString(Get(l2[i], "id")) == k;
        if i < |list| { assert l2[i] == list[i]; }
      }
      forall k | k in IdKeys(list) ensures k in IdKeys(l2) {
        var i :| 0 <= i < |list| && ToString(Get(list[i], "id")) == k;
        assert l2[i] == list[i];
      }
      assert ToString(Get(l2[|list|], "id")) in IdKeys(l2);
    }
  }

  /** `forEach((s) => { lookup[s.id] = s[nameField]; })` over a fresh object. */
  method BuildLookup(list: seq<Object>, nameField: string) returns (lookup: Object)
    ensures lookup == LookupOf(list, nameField)
  {
    lookup := map[];
    var i := 0;
    while i < |list|
      invariant 0 <= i <= |list|
      invariant lookup == LookupOf(list[..i], nameField)
    {
      LookupOfSnoc(list[..i], nameField, list[i]);
      assert list[..i + 1] == list[..i] + [list[i]];
      lookup := lookup[ToString(Get(list[i], "id")) := Get(list[i], nameField)];
      i := i + 1;
    }
    assert list[..i] == list;
  }

  // ---------------------------------------------------------------------------
  // Capture tags

  /** The keys the `treeId`s of the capture-tag records become. */
  function TreeKeys(records: seq<Object>): set<string>
  {
    set i | 0 <= i < |records| :: ToString(Get(records[i], "treeId"))
  }

  /** The label a capture-tag record contributes. */
  function TagLabel(tagLookup: Object, record: Object): Value
  {
    Get(tagLookup, ToString(Get(record, "tagId")))
  }

  /** The labels of the records owned by key `k`, in record order. */
  function TagsOf(records: seq<Object>, tagLookup: Object, k: string): (r: seq<Value>)
    ensures |r| <= |records|
  {
    if records == [] then []
    else
      var last := records[|records| - 1];
      TagsOf(records[..|records| - 1], tagLookup, k)
      + (if ToString(Get(last, "treeId")) == k then [TagLabel(tagLookup, last)] else [])
  }

  /** The grouping the table uses: each tree id to the labels of its records. */
  function GroupedTags(records: seq<Object>, tagLookup: Object): (m: map<string, seq<Value>>)
    ensures m.Keys == TreeKeys(records)
  {
    map k | k in TreeKeys(records) :: TagsOf(records, tagLookup, k)
  }

  lemma TagsOfAbsent(records: seq<Object>, tagLookup: Object, k: string)
    requires k !in TreeKeys(records)
    ensures TagsOf(records, tagLookup, k) == []
  {
    if records != [] {
      var init := records[..|records| - 1];
      assert ToString(Get(records[|records| - 1], "treeId")) in TreeKeys(records);
      TagsOfAbsent(init, tagLookup, k);
    }
  }

  lemma TagsOfSnoc(records: seq<Object>, tagLookup: Object, e: Object, k: string)
    ensures TagsOf(records + [e], tagLookup, k)
         == TagsOf(records, tagLookup, k)
            + (if ToString(Get(e, "treeId")) == k then [TagLabel(tagLookup, e)] else [])
  {
    assert (records + [e])[..|records|] == records;
  }

  lemma TreeKeysSnoc(records: seq<Object>, e: Object)
    ensures TreeKeys(records + [e]) == TreeKeys(records) + {ToString(Get(e, "treeId"))}
  {
    var r2 := records + [e];
    forall x | x in TreeKeys(r2) ensures x in TreeKeys(records) + {ToString(Get(e, "treeId"))} {
      var i :| 0 <= i < |r2| && ToString(Get(r2[i], "treeId")) == x;
      if i < |records| { assert r2[i] == records[i]; }
    }
    forall x | x in TreeKeys(records) ensures x in TreeKeys(r2) {
      var i :| 0 <= i < |records| && ToString(Get(records[i], "treeId")) == x;
      assert r2[i] == records[i];
    }
    assert ToString(Get(r2[|records|], "treeId")) in TreeKeys(r2);
  }

  lemma GroupedTagsSnoc(records: seq<Object>, tagLookup: Object, e: Object)
    ensures var g := GroupedTags(records, tagLookup);
      var k := ToString(Get(e, "treeId"));
      GroupedTags(records + [e], tagLookup)
        == g[k := (if k in g then g[k] else []) + [TagLabel(tagLookup, e)]]
  {
    var g := GroupedTags(records, tagLookup);
    var g2 := GroupedTags(records + [e], tagLookup);
    var k := ToString(Get(e, "treeId"));
    var expected := g[k := (if k in g then g[k] else []) + [TagLabel(tagLookup, e)]];
    TreeKeysSnoc(records, e);
    assert g2.Keys == expected.Keys;
    forall x | x in g2.Keys ensures g2[x] == expected[x] {
      TagsOfSnoc(records, tagLookup, e, x);
      if x == k && k !in g {
        TagsOfAbsent(records, tagLookup, k);
      }
    }
  }

  /** The grouping loop of the capture-tags effect, over a fresh object. */
  method GroupCaptureTags(captureTags: seq<Object>, tagLookup: Object) returns (lookup: map<string, seq<Value>>)
    ensures lookup == GroupedTags(captureTags, tagLookup)
  {
    lookup := map[];
    var i := 0;
    while i < |captureTags|
      invariant 0 <= i <= |captureTags|
      invariant lookup == GroupedTags(captureTags[..i], tagLookup)
    {
      var captureTag := captureTags[i];
      var key := ToString(Get(captureTag, "treeId"));
      ghost var before := lookup;
      if key !in lookup {
        lookup := lookup[key := []];
      }
      lookup := lookup[key := lookup[key] + [TagLabel(tagLookup, captureTag)]];
      assert lookup == before[key := (if key in before then before[key] else []) + [TagLabel(tagLookup, captureTag)]];
      GroupedTagsSnoc(captureTags[..i], tagLookup, captureTag);
      assert captureTags[..i + 1] == captureTags[..i] + [captureTag];
      i := i + 1;
    }
    assert captureTags[..i] == captureTags;
  }

  /** The total length of the lists a map holds. */
  ghost function SumLengths(g: map<string, seq<Value>>): nat
    decreases |g|
  {
    if g == map[] then 0
    else
      var k :| k in g;
      assert |g - {k}| < |g| by {
        assert (g - {k}).Keys == g.Keys - {k};
      }
      |g[k]| + SumLengths(g - {k})
  }

  lemma {:induction false} SumLengthsRemove(g: map<string, seq<Value>>, k: string)
    requires k in g
    ensures SumLengths(g) == |g[k]| + SumLengths(g - {k})
    decreases |g|
  {
    var j :| j in g && SumLengths(g) == |g[j]| + SumLengths(g - {j});
    if j != k {
      assert (g - {j}).Keys == g.Keys - {j};
      assert (g - {k}).Keys == g.Keys - {k};
      SumLengthsRemove(g - {j}, k);
      SumLengthsRemove(g - {k}, j);
      assert g - {j} - {k} == g - {k} - {j};
    }
  }

  lemma SumLengthsAppend(g: map<string, seq<Value>>, k: string, x: Value)
    ensures SumLengths(g[k := (if k in g then g[k] else []) + [x]]) == SumLengths(g) + 1
  {
    var g2 := g[k := (if k in g then g[k] else []) + [x]];
    SumLengthsRemove(g2, k);
    assert g2 - {k} == g - {k};
    if k in g {
      SumLengthsRemove(g, k);
    } else {
      assert g - {k} == g;
    }
  }

  /** Every record lands in exactly one list: the lengths sum to the number
      of records. */
  lemma {:induction false} GroupedTagsTotal(records: seq<Object>, tagLookup: Object)
    ensures SumLengths(GroupedTags(records, tagLookup)) == |records|
  {
    if records == [] {
      assert GroupedTags(records, tagLookup) == map[];
    } else {
      var init, e := records[..|records| - 1], records[|records| - 1];
      assert records == init + [e];
      GroupedTagsTotal(init, tagLookup);
      GroupedTagsSnoc(init, tagLookup, e);
      var g := GroupedTags(init, tagLookup);
      SumLengthsAppend(g, ToString(Get(e, "treeId")), TagLabel(tagLookup, e));
    }
  }

  /** The request of the capture-tags effect: none at all when there are no
      captures, else the ids of the captures in table order. */
  function CaptureTagRequest(captures: Option<seq<Capture>>): (r: Option<seq<Value>>)
    ensures r.None? <==> captures.None? || |captures.value| == 0
    ensures r.Some? ==> (|r.value| == |captures.value|
      && forall i :: 0 <= i < |captures.value| ==> r.value[i] == Get(captures.value[i], "id"))
  {
    if captures.None? || |captures.value| == 0 then None
    else Some(seq(|captures.value|, i requires 0 <= i < |captures.value| => Get(captures.value[i], "id")))
  }

  // ---------------------------------------------------------------------------
  // Component state

  /** The state the captures table keeps: the sort state it shares with the
      captures context and the three lookups it builds. */
  class CaptureTableView {
    var sort: SortState
    var speciesLookup: Object
    var tagLookup: Object
    var captureTagLookup: map<string, seq<Value>>

    /** The lookups start empty (`useState({})`). */
    constructor (sort: SortState)
      ensures this.sort == sort
      ensures speciesLookup == map[] && tagLookup == map[] && captureTagLookup == map[]
    {
      this.sort := sort;
      speciesLookup := map[];
      tagLookup := map[];
      captureTagLookup := map[];
    }

    /** A click on the header of column `attr`. */
    method SortBy(attr: string)
      modifies this
      ensures sort == NextSort(old(sort), attr)
      ensures speciesLookup == old(speciesLookup) && tagLookup == old(tagLookup)
      ensures captureTagLookup == old(captureTagLookup)
    {
      var newOrder := if sort.orderBy == attr && sort.order == Asc then Desc else Asc;
      var newOrderBy := attr;
      sort := sort.(order := newOrder);
      sort := sort.(orderBy := newOrderBy);
    }

    /** `populateSpeciesLookup`: rebuilds the species lookup from scratch. */
    method PopulateSpeciesLookup(speciesList: seq<Object>)
      modifies this
      ensures speciesLookup == LookupOf(speciesList, "name")
      ensures sort == old(sort) && tagLookup == old(tagLookup)
      ensures captureTagLookup == old(captureTagLookup)
    {
      var species := BuildLookup(speciesList, "name");
      speciesLookup := species;
    }

    /** `populateTagLookup`: rebuilds the tag lookup from scratch. */
    method PopulateTagLookup(tagList: seq<Object>)
      modifies this
      ensures tagLookup == LookupOf(tagList, "tagName")
      ensures sort == old(sort) && speciesLookup == old(speciesLookup)
      ensures captureTagLookup == old(captureTagLookup)
    {
      var tags := BuildLookup(tagList, "tagName");
      tagLookup := tags;
    }

    /** The capture-tags effect. `getCaptureTags` stands for the server's
        answer to a request for the given capture ids; `requested` is the
        request made, if any. */
    method LoadCaptureTags(captures: Option<seq<Capture>>, getCaptureTags: seq<Value> -> seq<Object>)
      returns (requested: Option<seq<Value>>)
      modifies this
      ensures requested == CaptureTagRequest(captures)
      ensures requested.None? ==> captureTagLookup == old(captureTagLookup)
      ensures requested.Some? ==>
        captureTagLookup == GroupedTags(getCaptureTags(requested.value), tagLookup)
      ensures sort == old(sort) && speciesLookup == old(speciesLookup) && tagLookup == old(tagLookup)
    {
      requested := CaptureTagRequest(captures);
      if requested.None? {
        return;
      }
      var captureTags := getCaptureTags(requested.value);
      var lookup := GroupCaptureTags(captureTags, tagLookup);
      captureTagLookup := lookup;
    }

    /** The rows the table body shows for `captures`. */
    function Rows(captures: seq<Capture>, columns: seq<Column>, status: (Value, Value) -> Value): (rows: seq<seq<Cell>>)
      reads this
      ensures |rows| == |captures|
      ensures forall i :: 0 <= i < |captures| ==>
        rows[i] == RenderRow(captures[i], columns, speciesLookup, captureTagLookup, status)
    {
      var species, tags := speciesLookup, captureTagLookup;
      seq(|captures|, i requires 0 <= i < |captures| =>
        RenderRow(captures[i], columns, species, tags, status))
    }
  }
}
