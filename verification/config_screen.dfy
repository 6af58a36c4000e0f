/**
 * The configuration screen (src/locations/ConfigScreen.tsx): it owns the working
 * guide mapping, edits it entry by entry or by batch, and reconciles it with the
 * static defaults through a preview that the administrator accepts or rejects.
 */
module ConfigScreen {
  import opened Wrappers
  import opened Config
  import opened CreateGuides

  // ---------------------------------------------------------------------------
  // Initial parameters

  /** One entry per default, carrying the default's id and no override. */
  function DefaultMapping(defaults: DefaultConfig): GuideMapping
  {
    map k | k in defaults :: GuideEntry(defaults[k], None)
  }

  /**
   * The parameters the screen starts from: persisted parameters that carry a
   * `contentTypeGuides` object are used as they are, even when that object is
   * empty; otherwise every default becomes an entry without override.
   */
  function Initialize(persisted: Option<InstallationParameters>, defaults: DefaultConfig): (p: InstallationParameters)
    ensures persisted.Some? && persisted.value.contentTypeGuides.Some? ==> p == persisted.value
    ensures !(persisted.Some? && persisted.value.contentTypeGuides.Some?) ==>
      && p.contentTypeGuides.Some?
      && p.contentTypeGuides.value.Keys == defaults.Keys
      && forall k :: k in defaults ==> p.contentTypeGuides.value[k] == GuideEntry(defaults[k], None)
  {
    if persisted.Some? && persisted.value.contentTypeGuides.Some? then persisted.value
    else InstallationParameters(Some(DefaultMapping(defaults)))
  }

  // ---------------------------------------------------------------------------
  // Single-entry edits

  /** The entry for `contentType` becomes the given pair; every other entry stays. */
  function Upsert(m: GuideMapping, contentType: ContentType, defaultGuideId: Option<string>, guideId: Option<string>): (r: GuideMapping)
    ensures r.Keys == m.Keys + {contentType}
    ensures r[contentType] == GuideEntry(defaultGuideId, guideId)
    ensures forall k :: k in m && k != contentType ==> r[k] == m[k]
  {
    m[contentType := GuideEntry(defaultGuideId, guideId)]
  }

  lemma UpsertIdempotent(m: GuideMapping, contentType: ContentType, defaultGuideId: Option<string>, guideId: Option<string>)
    ensures Upsert(Upsert(m, contentType, defaultGuideId, guideId), contentType, defaultGuideId, guideId)
         == Upsert(m, contentType, defaultGuideId, guideId)
  {
  }

  /** Two upserts of the same content type: only the later one is visible. */
  lemma UpsertLastWriteWins(m: GuideMapping, contentType: ContentType, d1: Option<string>, g1: Option<string>, d2: Option<string>, g2: Option<string>)
    ensures Upsert(Upsert(m, contentType, d1, g1), contentType, d2, g2) == Upsert(m, contentType, d2, g2)
  {
  }

  /** The entries whose key is not `contentType`, unchanged. */
  function Delete(m: GuideMapping, contentType: ContentType): (r: GuideMapping)
    ensures r.Keys == m.Keys - {contentType}
    ensures forall k :: k in r ==> r[k] == m[k]
    ensures contentType !in m ==> r == m
  {
    map k | k in m && k != contentType :: m[k]
  }

  /** Deleting after an upsert of the same key forgets the upsert. */
  lemma DeleteAfterUpsert(m: GuideMapping, contentType: ContentType, defaultGuideId: Option<string>, guideId: Option<string>)
    ensures Delete(Upsert(m, contentType, defaultGuideId, guideId), contentType) == Delete(m, contentType)
  {
  }

  // ---------------------------------------------------------------------------
  // Sync with the defaults

  /** `m[k]?.guideId || null`: an absent key, a null override and `""` all give null. */
  function TruthyOverride(m: GuideMapping, k: ContentType): Option<string>
  {
    if k in m && m[k].guideId.Some? && m[k].guideId.value != "" then m[k].guideId else None
  }

  /**
   * The sync candidate: the working entries, overlaid for every default key by
   * an entry holding the default and the existing override if it is a non-empty
   * string (an empty override becomes null).
   */
  function Sync(m: GuideMapping, defaults: DefaultConfig): (r: GuideMapping)
    ensures r.Keys == m.Keys + defaults.Keys
    ensures forall k :: k in defaults ==>
      && r[k].defaultGuideId == defaults[k]
      && (r[k].guideId.Some? <==> k in m && m[k].guideId.Some? && m[k].guideId.value != "")
      && (r[k].guideId.Some? ==> r[k].guideId == m[k].guideId)
    ensures forall k :: k in m && k !in defaults ==> r[k] == m[k]
  {
    m + map k | k in defaults :: GuideEntry(defaults[k], TruthyOverride(m, k))
  }

  /** A second sync against the same defaults proposes nothing new. */
  lemma SyncIdempotent(m: GuideMapping, defaults: DefaultConfig)
    ensures Sync(Sync(m, defaults), defaults) == Sync(m, defaults)
  {
  }

  /** A mapping freshly synthesised from the defaults is already in sync with them. */
  lemma SyncOfDefaultMapping(defaults: DefaultConfig)
    ensures Sync(DefaultMapping(defaults), defaults) == DefaultMapping(defaults)
  {
  }

  /** A non-empty override survives a sync; only the default is refreshed. */
  lemma SyncKeepsOverride(m: GuideMapping, defaults: DefaultConfig, k: ContentType, g: string)
    requires k in m && m[k].guideId == Some(g) && g != ""
    requires k in defaults
    ensures Sync(m, defaults)[k] == GuideEntry(defaults[k], Some(g))
  {
  }

  // ---------------------------------------------------------------------------
  // Batch creation

  /** The entry a form row becomes. */
  function RowEntry(row: Row): GuideEntry
  {
    GuideEntry(Some(row.defaultGuideId), Some(row.guideId))
  }

  /**
   * The `reduce` accumulator of `mergeNewGuides` after the given rows: each row
   * writes the entry for its content type, so a later duplicate overwrites an
   * earlier one.
   */
  function BatchMapping(rows: seq<Row>): (m: GuideMapping)
    ensures m.Keys == set r | r in rows :: r.contentType
  {
    if rows == [] then map[]
    else
      var last := rows[|rows| - 1];
      BatchMapping(rows[..|rows| - 1])[last.contentType := RowEntry(last)]
  }

  /** Each content type of the batch maps to its last row in the batch. */
  lemma {:induction false} BatchLastRowWins(rows: seq<Row>, j: int)
    requires 0 <= j < |rows|
    requires forall i :: j < i < |rows| ==> rows[i].contentType != rows[j].contentType
    ensures rows[j].contentType in BatchMapping(rows)
    ensures BatchMapping(rows)[rows[j].contentType] == RowEntry(rows[j])
    decreases |rows|
  {
    if j < |rows| - 1 {
      var prefix := rows[..|rows| - 1];
      BatchLastRowWins(prefix, j);
    }
  }

  /** The working mapping with the batch written over it. */
  function Merge(m: GuideMapping, rows: seq<Row>): (r: GuideMapping)
    ensures r.Keys == m.Keys + set row | row in rows :: row.contentType
    ensures forall k :: k in m && k !in BatchMapping(rows) ==> r[k] == m[k]
    ensures forall k :: k in BatchMapping(rows) ==> r[k] == BatchMapping(rows)[k]
  {
    m + BatchMapping(rows)
  }

  /** The loop of the `reduce` at lines 127-133: it fills the accumulator in place. */
  method TransformGuides(rows: seq<Row>) returns (acc: GuideMapping)
    ensures acc == BatchMapping(rows)
    ensures acc.Keys == set r | r in rows :: r.contentType
  {
    acc := map[];
    for i := 0 to |rows|
      invariant acc == BatchMapping(rows[..i])
    {
      assert rows[..i + 1][..i] == rows[..i];
      acc := acc[rows[i].contentType := RowEntry(rows[i])];
    }
    assert rows[..|rows|] == rows;
  }

  // ---------------------------------------------------------------------------
  // Collision check

  /** `candidates.filter(type => m.hasOwnProperty(type))`. */
  function KeysAmong(m: GuideMapping, candidates: seq<string>): (r: seq<string>)
    ensures |r| <= |candidates|
    ensures forall i :: 0 <= i < |r| ==> r[i] in m
  {
    if candidates == [] then []
    else (if candidates[0] in m then [candidates[0]] else []) + KeysAmong(m, candidates[1..])
  }

  /** Every candidate that is a key is kept as often as it occurs; no other value is kept. */
  lemma {:induction false} KeysAmongCount(m: GuideMapping, candidates: seq<string>, x: string)
    ensures multiset(KeysAmong(m, candidates))[x] == if x in m then multiset(candidates)[x] else 0
    decreases |candidates|
  {
    if candidates != [] {
      assert candidates == [candidates[0]] + candidates[1..];
      KeysAmongCount(m, candidates[1..], x);
    }
  }

  /** The filter keeps order: filtering a concatenation concatenates the filtered parts. */
  lemma {:induction false} KeysAmongAppend(m: GuideMapping, a: seq<string>, b: seq<string>)
    ensures KeysAmong(m, a + b) == KeysAmong(m, a) + KeysAmong(m, b)
    decreases |a|
  {
    if a == [] {
      assert a + b == b;
    } else {
      assert (a + b)[0] == a[0];
      assert (a + b)[1..] == a[1..] + b;
      KeysAmongAppend(m, a[1..], b);
    }
  }

  /** `checkIfContentTypeExists`: an absent mapping has no keys to collide with. */
  function Collisions(guides: Option<GuideMapping>, candidates: seq<string>): (r: seq<string>)
    ensures guides.None? ==> r == []
    ensures r == [] <==> guides.None? || forall i :: 0 <= i < |candidates| ==> candidates[i] !in guides.value
  {
    match guides
    case None => []
    case Some(m) =>
      var r := KeysAmong(m, candidates);
      assert r != [] <==> exists i :: 0 <= i < |candidates| && candidates[i] in m by {
        if i :| 0 <= i < |candidates| && candidates[i] in m {
          assert candidates[i] in multiset(candidates);
          KeysAmongCount(m, candidates, candidates[i]);
        }
        if r != [] {
          assert r[0] in multiset(r);
          KeysAmongCount(m, candidates, r[0]);
          assert r[0] in candidates;
        }
      }
      r
  }

  /** A batch that passed the collision check overwrites no existing entry. */
  lemma MergeAfterNoCollision(m: GuideMapping, rows: seq<Row>)
    requires Collisions(Some(m), ContentTypes(rows)) == []
    ensures m.Keys !! BatchMapping(rows).Keys
    ensures forall k :: k in m ==> Merge(m, rows)[k] == m[k]
  {
    var cts := ContentTypes(rows);
    forall k | k in BatchMapping(rows) ensures k !in m {
      var row :| row in rows && row.contentType == k;
      var i :| 0 <= i < |rows| && rows[i] == row;
      assert cts[i] == k;
    }
  }

  // ---------------------------------------------------------------------------
  // The screen's state

  class ConfigScreenState {
    /** The static default configuration, fixed for the session. */
    const defaults: DefaultConfig
    var parameters: InstallationParameters
    var syncPreview: Option<InstallationParameters>
    var isSyncModalOpen: bool
    var createdGuides: Option<seq<ContentType>>

    /** The initial state before the persisted parameters arrive. */
    constructor (defaults: DefaultConfig)
      ensures this.defaults == defaults
      ensures parameters == InstallationParameters(Some(map[]))
      ensures syncPreview == None && !isSyncModalOpen && createdGuides == None
    {
      this.defaults := defaults;
      parameters := InstallationParameters(Some(map[]));
      syncPreview := None;
      isSyncModalOpen := false;
      createdGuides := None;
    }

    /** The fetch effect, with the persisted parameters passed in. */
    method FetchParameters(persisted: Option<InstallationParameters>)
      modifies this`parameters
      ensures parameters == Initialize(persisted, defaults)
    {
      parameters := Initialize(persisted, defaults);
    }

    /** What the save hook hands to the host: the working parameters. */
    function OnConfigure(): (p: InstallationParameters)
      reads this
      ensures p.contentTypeGuides == parameters.contentTypeGuides
    {
      parameters
    }

    method UpdateInstallationParameters(contentType: ContentType, defaultGuideId: Option<string>, guideId: Option<string>)
      modifies this`parameters
      ensures parameters == InstallationParameters(Some(Upsert(GuidesOf(old(parameters)), contentType, defaultGuideId, guideId)))
    {
      parameters := InstallationParameters(Some(Upsert(GuidesOf(parameters), contentType, defaultGuideId, guideId)));
    }

    method DeleteInstallationParameter(contentType: ContentType)
      modifies this`parameters
      ensures parameters == InstallationParameters(Some(Delete(GuidesOf(old(parameters)), contentType)))
    {
      parameters := InstallationParameters(Some(Delete(GuidesOf(parameters), contentType)));
    }

    /** Proposes the sync candidate; the working parameters are not touched. */
    method SyncWithDefaultConfig()
      modifies this`syncPreview, this`isSyncModalOpen
      ensures syncPreview == Some(InstallationParameters(Some(Sync(GuidesOf(parameters), defaults))))
      ensures isSyncModalOpen
    {
      syncPreview := Some(InstallationParameters(Some(Sync(GuidesOf(parameters), defaults))));
      isSyncModalOpen := true;
    }

    /** Commits the preview if there is one; the preview itself is kept. */
    method AcceptChanges()
      modifies this`parameters, this`isSyncModalOpen
      ensures old(syncPreview).Some? ==> parameters == old(syncPreview).value
      ensures old(syncPreview).None? ==> parameters == old(parameters)
      ensures !isSyncModalOpen
    {
      if syncPreview.Some? {
        parameters := syncPreview.value;
      }
      isSyncModalOpen := false;
    }

    /** Discards the preview; the working parameters are not touched. */
    method RejectChanges()
      modifies this`syncPreview, this`isSyncModalOpen
      ensures syncPreview == None && !isSyncModalOpen
    {
      syncPreview := None;
      isSyncModalOpen := false;
    }

    /** Writes the batch over the working mapping and records its content types in order. */
    method MergeNewGuides(newGuides: seq<Row>)
      modifies this`parameters, this`createdGuides
      ensures parameters == InstallationParameters(Some(Merge(GuidesOf(old(parameters)), newGuides)))
      ensures createdGuides == Some(ContentTypes(newGuides))
    {
      var transformed := TransformGuides(newGuides);
      parameters := InstallationParameters(Some(GuidesOf(parameters) + transformed));
      createdGuides := Some(ContentTypes(newGuides));
    }

    /** Closing the "Guides Created" note clears the list of created content types. */
    method DismissCreatedGuides()
      modifies this`createdGuides
      ensures createdGuides == None
    {
      createdGuides := None;
    }

    /**
     * The create form's save, wired as the screen renders it: the form validates
     * against the working mapping and, only if nothing collides, the whole batch
     * is merged.
     */
    method SubmitNewGuides(form: CreateGuidesForm)
      requires form.Valid()
      modifies this`parameters, this`createdGuides, form`error, form`contentTypesInUse
      ensures form.Valid()
      ensures Collisions(old(parameters).contentTypeGuides, ContentTypes(form.guides)) == [] ==>
        && parameters == InstallationParameters(Some(Merge(GuidesOf(old(parameters)), form.guides)))
        && createdGuides == Some(ContentTypes(form.guides))
        && form.error == old(form.error)
        && form.contentTypesInUse == old(form.contentTypesInUse)
      ensures Collisions(old(parameters).contentTypeGuides, ContentTypes(form.guides)) != [] ==>
        && parameters == old(parameters)
        && createdGuides == old(createdGuides)
        && form.error == InUseMessage
        && form.contentTypesInUse == Collisions(old(parameters).contentTypeGuides, ContentTypes(form.guides))
    {
      var guides := parameters.contentTypeGuides;
      var saved := form.Save(candidates => Collisions(guides, candidates));
      if saved.Some? {
        MergeNewGuides(saved.value);
      }
    }
  }
}
