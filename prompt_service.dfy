/**
 * `PromptService`: the registered prompt presets, the detail built from a
 * stored row, seeding the missing presets, listing, reading and updating a
 * prompt. The `prompts` table is a map from `promptId`, its unique key; the
 * timestamps the database and `new Date()` produce are parameters.
 */
module PromptService {
  import opened Optional

  /** A `PromptPreset`. */
  datatype Preset = Preset(id: string, title: string, description: string, defaultContent: string)

  /** The ids of `PROMPT_PRESETS`, in order. */
  const RegisteredIds: seq<string> := ["polish", "ranker"]

  /** A row of the `prompts` table. */
  datatype PromptRow = PromptRow(promptId: string, title: Option<string>, content: Option<string>, updatedAt: Option<string>)

  /** A `PromptDetail`. */
  datatype PromptDetail = PromptDetail(id: string, title: string, description: Option<string>, size: nat,
                                       updatedAt: string, content: string)

  predicate DistinctIds(presets: seq<Preset>) {
    forall i, j :: 0 <= i < j < |presets| ==> presets[i].id != presets[j].id
  }

  /** `PROMPT_PRESET_MAP.get(id)`: a `Map` built from the list keeps the last preset of an id. */
  function PresetFor(presets: seq<Preset>, id: string): (p: Option<Preset>)
    ensures p.Some? ==> p.value in presets && p.value.id == id
    ensures p.None? <==> forall q :: q in presets ==> q.id != id
  {
    if presets == [] then None
    else if presets[|presets| - 1].id == id then Some(presets[|presets| - 1])
    else PresetFor(presets[..|presets| - 1], id)
  }

  /** `buildPromptDetail`: each field from the row, else the preset, else its fallback. */
  function BuildPromptDetail(presets: seq<Preset>, row: PromptRow, preset: Option<Preset>, now: string): (d: PromptDetail)
    ensures var meta := if preset.Some? then preset else PresetFor(presets, row.promptId);
      d.id == row.promptId && d.size == |d.content|
      && (row.content.Some? ==> d.content == row.content.value)
      && (row.content.None? && meta.Some? ==> d.content == meta.value.defaultContent)
      && (row.content.None? && meta.None? ==> d.content == "")
      && (row.title.Some? ==> d.title == row.title.value)
      && (row.title.None? && meta.Some? ==> d.title == meta.value.title)
      && (row.title.None? && meta.None? ==> d.title == row.promptId)
      && d.description == (if meta.Some? then Some(meta.value.description) else None)
      && d.updatedAt == row.updatedAt.GetOr(now)
  {
    var meta := if preset.Some? then preset else PresetFor(presets, row.promptId);
    var content := if row.content.Some? then row.content.value
                   else if meta.Some? then meta.value.defaultContent else "";
    PromptDetail(row.promptId,
      if row.title.Some? then row.title.value else if meta.Some? then meta.value.title else row.promptId,
      if meta.Some? then Some(meta.value.description) else None,
      |content|, row.updatedAt.GetOr(now), content)
  }

  /** The detail of a preset without a row. */
  function DefaultDetail(p: Preset, now: string): (d: PromptDetail)
    ensures d.id == p.id && d.title == p.title && d.content == p.defaultContent && d.size == |d.content|
  {
    PromptDetail(p.id, p.title, Some(p.description), |p.defaultContent|, now, p.defaultContent)
  }

  /** The row `seedDefaults` inserts for a preset; `stamp` is the `updatedAt` the database gives it. */
  function SeedRow(p: Preset, stamp: Option<string>): PromptRow {
    PromptRow(p.id, Some(p.title), Some(p.defaultContent), stamp)
  }

  /** The table after `seedDefaults` has visited `presets` in order. */
  function Seeded(rows: map<string, PromptRow>, presets: seq<Preset>, stamp: Option<string>): map<string, PromptRow> {
    if presets == [] then rows
    else
      var before := Seeded(rows, presets[..|presets| - 1], stamp);
      var p := presets[|presets| - 1];
      if p.id in before then before else before[p.id := SeedRow(p, stamp)]
  }

  /** The table after the upsert of `updatePrompt`; `stamp` is the `updatedAt` the database holds afterwards. */
  function Upserted(rows: map<string, PromptRow>, p: Preset, content: string, stamp: Option<string>): map<string, PromptRow> {
    rows[p.id := PromptRow(p.id, Some(p.title), Some(content), stamp)]
  }

  function NotRegistered(id: string): string {
    "Prompt " + id + " not registered"
  }

  /** `getPrompt` on a table. */
  function Get(rows: map<string, PromptRow>, presets: seq<Preset>, id: string, now: string): (r: Result<PromptDetail, string>)
    ensures r.Err? <==> PresetFor(presets, id).None?
    ensures r.Err? ==> r.error == NotRegistered(id)
    ensures r.Ok? ==> r.value.id == id && r.value.size == |r.value.content|
    ensures r.Ok? && id !in rows ==> r.value == DefaultDetail(PresetFor(presets, id).value, now)
  {
    var preset := PresetFor(presets, id);
    if preset.None? then Err(NotRegistered(id))
    else if id in rows && rows[id].promptId == id then Ok(BuildPromptDetail(presets, rows[id], preset, now))
    else Ok(DefaultDetail(preset.value, now))
  }

  /** What `listPrompts` maps the presets to, given the table it reads. */
  function Listing(rows: map<string, PromptRow>, presets: seq<Preset>, now: string): (details: seq<PromptDetail>)
    ensures |details| == |presets|
    ensures forall i :: 0 <= i < |presets| ==> details[i].id == presets[i].id
  {
    seq(|presets|, i requires 0 <= i < |presets| =>
      var p := presets[i];
      if p.id in rows && rows[p.id].promptId == p.id then BuildPromptDetail(presets, rows[p.id], Some(p), now)
      else DefaultDetail(p, now))
  }

  /** Every row is stored under its own id. */
  predicate KeyedById(rows: map<string, PromptRow>) {
    forall id :: id in rows ==> rows[id].promptId == id
  }

  class PromptTable {
    var rows: map<string, PromptRow>

    constructor ()
      ensures rows == map[]
    {
      rows := map[];
    }

    /** `seedDefaults`: inserts a row for every preset that has none, in order. */
    method SeedDefaults(presets: seq<Preset>, stamp: Option<string>)
      modifies this
      ensures rows == Seeded(old(rows), presets, stamp)
    {
      for i := 0 to |presets|
        invariant rows == Seeded(old(rows), presets[..i], stamp)
      {
        assert presets[..i + 1][..i] == presets[..i];
        var preset := presets[i];
        if preset.id in rows {
          continue;
        }
        rows := rows[preset.id := SeedRow(preset, stamp)];
      }
      assert presets[..|presets|] == presets;
    }

    /** `listPrompts`: seeds, then lists the presets in order. */
    method ListPrompts(presets: seq<Preset>, stamp: Option<string>, now: string) returns (details: seq<PromptDetail>)
      modifies this
      ensures rows == Seeded(old(rows), presets, stamp)
      ensures details == Listing(rows, presets, now)
    {
      SeedDefaults(presets, stamp);
      details := Listing(rows, presets, now);
    }

    /** `getPrompt`. */
    method GetPrompt(presets: seq<Preset>, id: string, now: string) returns (r: Result<PromptDetail, string>)
      ensures r == Get(rows, presets, id, now)
    {
      var preset := PresetFor(presets, id);
      if preset.None? {
        return Err(NotRegistered(id));
      }
      if id in rows && rows[id].promptId == id {
        return Ok(BuildPromptDetail(presets, rows[id], preset, now));
      }
      r := Ok(DefaultDetail(preset.value, now));
    }

    /** `updatePrompt`: an unregistered id throws before the table is touched. */
    method UpdatePrompt(presets: seq<Preset>, id: string, content: string, stamp: Option<string>, now: string)
      returns (r: Result<PromptDetail, string>)
      modifies this
      ensures PresetFor(presets, id).None? ==> r == Err(NotRegistered(id)) && rows == old(rows)
      ensures PresetFor(presets, id).Some? ==>
        rows == Upserted(old(rows), PresetFor(presets, id).value, content, stamp)
        && r == Ok(BuildPromptDetail(presets, rows[id], PresetFor(presets, id), now))
    {
      var preset := PresetFor(presets, id);
      if preset.None? {
        return Err(NotRegistered(id));
      }
      rows := rows[id := PromptRow(id, Some(preset.value.title), Some(content), stamp)];
      r := Ok(BuildPromptDetail(presets, rows[id], preset, now));
    }
  }

  /** Seeding leaves every existing row as it was. */
  lemma {:induction false} SeededKeepsRows(rows: map<string, PromptRow>, presets: seq<Preset>, stamp: Option<string>, id: string)
    requires id in rows
    ensures id in Seeded(rows, presets, stamp) && Seeded(rows, presets, stamp)[id] == rows[id]
  {
    if presets != [] {
      SeededKeepsRows(rows, presets[..|presets| - 1], stamp, id);
    }
  }

  /** Seeding adds exactly the preset ids that had no row. */
  lemma {:induction false} SeededKeys(rows: map<string, PromptRow>, presets: seq<Preset>, stamp: Option<string>)
    ensures Seeded(rows, presets, stamp).Keys == rows.Keys + set p | p in presets :: p.id
  {
    if presets != [] {
      var init := presets[..|presets| - 1];
      SeededKeys(rows, init, stamp);
      assert presets == init + [presets[|presets| - 1]];
      assert (set p | p in presets :: p.id) == (set p | p in init :: p.id) + {presets[|presets| - 1].id};
    }
  }

  /** A preset with no row gets its seed row, when the ids are distinct. */
  lemma {:induction false} SeededRowOfPreset(rows: map<string, PromptRow>, presets: seq<Preset>, stamp: Option<string>, i: nat)
    requires DistinctIds(presets) && i < |presets| && presets[i].id !in rows
    ensures presets[i].id in Seeded(rows, presets, stamp)
    ensures Seeded(rows, presets, stamp)[presets[i].id] == SeedRow(presets[i], stamp)
    decreases |presets|
  {
    var n := |presets| - 1;
    var init := presets[..n];
    if i == n {
      SeededKeys(rows, init, stamp);
      assert presets[i].id !in (set p | p in init :: p.id);
    } else {
      SeededRowOfPreset(rows, init, stamp, i);
    }
  }

  /** When every preset already has a row, seeding inserts nothing. */
  lemma {:induction false} SeededNoop(rows: map<string, PromptRow>, presets: seq<Preset>, stamp: Option<string>)
    requires forall p :: p in presets ==> p.id in rows
    ensures Seeded(rows, presets, stamp) == rows
  {
    if presets != [] {
      SeededNoop(rows, presets[..|presets| - 1], stamp);
    }
  }

  /** Running `seedDefaults` twice inserts nothing the second time. */
  lemma SeedIdempotent(rows: map<string, PromptRow>, presets: seq<Preset>, stamp1: Option<string>, stamp2: Option<string>)
    ensures Seeded(Seeded(rows, presets, stamp1), presets, stamp2) == Seeded(rows, presets, stamp1)
  {
    SeededKeys(rows, presets, stamp1);
    SeededNoop(Seeded(rows, presets, stamp1), presets, stamp2);
  }

  /** Seeding keeps rows stored under their own id. */
  lemma {:induction false} SeededKeyedById(rows: map<string, PromptRow>, presets: seq<Preset>, stamp: Option<string>)
    requires KeyedById(rows)
    ensures KeyedById(Seeded(rows, presets, stamp))
  {
    if presets != [] {
      SeededKeyedById(rows, presets[..|presets| - 1], stamp);
    }
  }

  /** On an empty table, `listPrompts` shows every preset with its default title and content. */
  lemma FreshListingShowsDefaults(presets: seq<Preset>, stamp: Option<string>, now: string)
    requires DistinctIds(presets)
    ensures var details := Listing(Seeded(map[], presets, stamp), presets, now);
      forall i :: 0 <= i < |presets| ==>
        details[i].title == presets[i].title && details[i].content == presets[i].defaultContent
        && details[i].size == |presets[i].defaultContent|
  {
    var rows := Seeded(map[], presets, stamp);
    forall i | 0 <= i < |presets|
      ensures Listing(rows, presets, now)[i].title == presets[i].title
      ensures Listing(rows, presets, now)[i].content == presets[i].defaultContent
    {
      SeededRowOfPreset(map[], presets, stamp, i);
    }
  }

  /** After an update, reading the prompt gives the new content under the preset's title. */
  lemma GetAfterUpdate(rows: map<string, PromptRow>, presets: seq<Preset>, id: string, content: string,
                       stamp: Option<string>, now: string)
    requires PresetFor(presets, id).Some?
    ensures var r := Get(Upserted(rows, PresetFor(presets, id).value, content, stamp), presets, id, now);
      r.Ok? && r.value.content == content && r.value.size == |content|
      && r.value.title == PresetFor(presets, id).value.title
  {
  }

  /** With the presets of `PROMPT_PRESETS`, exactly "polish" and "ranker" can be read, whatever the table holds. */
  lemma RegisteredIdsOnly(rows: map<string, PromptRow>, presets: seq<Preset>, id: string, now: string)
    requires |presets| == |RegisteredIds| && forall i :: 0 <= i < |presets| ==> presets[i].id == RegisteredIds[i]
    ensures Get(rows, presets, id, now).Ok? <==> id == "polish" || id == "ranker"
  {
    if id == "polish" {
      assert presets[0] in presets;
    } else if id == "ranker" {
      assert presets[1] in presets;
    } else {
      forall q | q in presets
        ensures q.id != id
      {
        var i :| 0 <= i < |presets| && presets[i] == q;
      }
    }
  }

  /** Every listed preset with a row is built from that row, under the preset's metadata. */
  lemma ListingUsesStoredRows(rows: map<string, PromptRow>, presets: seq<Preset>, now: string, i: nat)
    requires KeyedById(rows) && i < |presets| && presets[i].id in rows
    ensures Listing(rows, presets, now)[i] == BuildPromptDetail(presets, rows[presets[i].id], Some(presets[i]), now)
  {
  }

  /** A row with neither content nor title, and no preset, is shown empty under its id. */
  lemma BareRowDetail(presets: seq<Preset>, id: string, now: string)
    requires PresetFor(presets, id).None?
    ensures var d := BuildPromptDetail(presets, PromptRow(id, None, None, None), None, now);
      d.content == "" && d.size == 0 && d.title == id && d.description.None? && d.updatedAt == now
  {
  }

  /** An empty stored content is kept, not replaced by the default: the fallback is on absence only. */
  lemma EmptyContentKept(presets: seq<Preset>, p: Preset, now: string)
    ensures BuildPromptDetail(presets, PromptRow(p.id, Some(""), Some(""), None), Some(p), now).content == ""
    ensures BuildPromptDetail(presets, PromptRow(p.id, Some(""), Some(""), None), Some(p), now).title == ""
  {
  }
}
