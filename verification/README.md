# Guide-mapping reconciler

A model, in Dafny, of the content-platform extension that maps content-type
identifiers to tutorial-video identifiers. An administrator edits the mapping
on the configuration screen. The sidebar widget then shows the right video for
the content type being edited.

The model has six modules:

- `Wrappers`: the `Option` type. It stands for `T | null` and for optional properties.
- `Config`: the value shapes of `src/@types/config.ts`.
  - A `GuideEntry` has a `defaultGuideId` and a `guideId` override. Both are `Option<string>`, and `Some("")` stays distinct from `None`.
  - A `GuideMapping` is a map from content type to entry.
  - The defaults are a map from content type to `Option<string>`.
  - `InstallationParameters` has an optional `contentTypeGuides`.
- `ConfigScreen`: the reconciler of `src/locations/ConfigScreen.tsx`.
  - Pure functions cover initialisation, upsert, delete, the sync candidate, the batch merge and the collision check.
  - The class `ConfigScreenState` holds the screen's state fields: `parameters`, `syncPreview`, `isSyncModalOpen` and `createdGuides`. Its methods replace these fields the way the handlers do.
  - The `reduce` of `mergeNewGuides` is the loop of the method `TransformGuides`.
- `CreateGuides`: the batch-create form of `src/components/CreateContentTypeGuides.tsx`. The class `CreateGuidesForm` holds the rows and the error state.
- `Sidebar`: the widget of `src/locations/Sidebar.tsx`. It covers the lookup, the `??` resolution, the embed URL, and the choice between no tutorial, the Go button and the video. The class `SidebarState` holds the widget's two state fields.
- `Utils`: `contentTypeIdToReadable` of `src/utils/index.ts`.

What the host supplies becomes an input:

- The persisted parameters are the argument of `FetchParameters`.
- The static defaults are a constant of the screen.
- The sidebar's installation parameters and content-type id are constants of `SidebarState`.
- The save hook returns the current `parameters`.

Source behaviour worth noting:

- `{}` is truthy, so a persisted empty mapping is kept and the defaults are ignored (src/locations/ConfigScreen.tsx:38).
- A batch is checked against the existing keys but not against itself. Within one batch, a later row for the same content type wins (`BatchLastRowWins`).
- Accepting a sync commits the preview and closes the dialog. It does not clear the preview.
- For a content type in the defaults, a sync turns an empty-string override into null (`||`). The sidebar keeps an empty-string override (`??`). So an entry edited with a blank override shows "no tutorial" even though it has a default (`BlankOverrideHidesDefault`). A later sync brings that default back (`SyncRestoresDefault`). An entry whose content type is not among the defaults is carried through the sync unchanged, so it keeps its `""` override and still shows "no tutorial" (`SyncKeepsBlankOutsideDefaults`).

## Model

| member | source | states |
|---|---|---|
| `ConfigScreen.Initialize` | src/locations/ConfigScreen.tsx:36-50 | Persisted parameters that carry a `contentTypeGuides` object are returned as they are. Otherwise the mapping has exactly the defaults' keys, and each key k maps to `{defaults[k], null}`. |
| `ConfigScreen.Upsert` | src/locations/ConfigScreen.tsx:68-79 | The key set gains `contentType`. Its entry becomes the given pair, which may hold a `""` override. Every other entry is unchanged. |
| `ConfigScreen.UpsertIdempotent` | src/locations/ConfigScreen.tsx:68-79 | Applying the same upsert twice equals applying it once. |
| `ConfigScreen.UpsertLastWriteWins` | src/locations/ConfigScreen.tsx:68-79 | Two upserts of one key equal the later upsert alone. |
| `ConfigScreen.Delete` | src/locations/ConfigScreen.tsx:82-89 | The key set is the old one minus `contentType`. The remaining entries are unchanged. Deleting an absent key gives an equal mapping. |
| `ConfigScreen.DeleteAfterUpsert` | src/locations/ConfigScreen.tsx:68-89 | Deleting a key after upserting it equals deleting it from the original mapping. |
| `ConfigScreen.Sync` | src/locations/ConfigScreen.tsx:92-106 | The key set is the union of the working keys and the default keys. Each default key gets the default and keeps its override only when that override is a non-empty string. Other keys are carried through unchanged. |
| `ConfigScreen.SyncIdempotent` | src/locations/ConfigScreen.tsx:92-106 | Syncing the candidate again against the same defaults gives the same candidate. |
| `ConfigScreen.SyncOfDefaultMapping` | src/locations/ConfigScreen.tsx:41-48 | The mapping synthesised from the defaults is a fixed point of sync. |
| `ConfigScreen.SyncKeepsOverride` | src/locations/ConfigScreen.tsx:101 | A non-empty override survives a sync, and only the default is refreshed. |
| `ConfigScreen.BatchMapping` | src/locations/ConfigScreen.tsx:127-133 | The accumulated map's keys are exactly the batch's content types. |
| `ConfigScreen.BatchLastRowWins` | src/locations/ConfigScreen.tsx:127-133 | Each content type of the batch maps to the entry of its last row. |
| `ConfigScreen.Merge` | src/locations/ConfigScreen.tsx:135-138 | The key set is the old keys plus the batch's content types. Batch entries override existing keys. Keys outside the batch are unchanged. |
| `ConfigScreen.TransformGuides` | src/locations/ConfigScreen.tsx:127-133 | The loop that fills the accumulator in place ends with exactly the batch map, and its keys are the batch's content types. |
| `ConfigScreen.KeysAmong` | src/locations/ConfigScreen.tsx:147 | The filter returns no more elements than the candidates, and each element it returns is an existing key. |
| `ConfigScreen.KeysAmongCount` | src/locations/ConfigScreen.tsx:147 | Each candidate that is a key is kept exactly as often as it occurs among the candidates. Nothing else is kept. |
| `ConfigScreen.KeysAmongAppend` | src/locations/ConfigScreen.tsx:147 | Filtering keeps order: filtering a concatenation gives the concatenation of the filtered parts. |
| `ConfigScreen.Collisions` | src/locations/ConfigScreen.tsx:145-149 | An absent mapping gives the empty list. The result is empty exactly when no candidate is an existing key. |
| `ConfigScreen.MergeAfterNoCollision` | src/locations/ConfigScreen.tsx:125-149 | Suppose a batch passes the collision check. Then its keys are disjoint from the existing ones, and merging overwrites no existing entry. |
| `ConfigScreen.ConfigScreenState.constructor` | src/locations/ConfigScreen.tsx:25-31 | The screen starts with an empty `contentTypeGuides`, no preview, the dialog closed and no created-guides note. |
| `ConfigScreen.ConfigScreenState.FetchParameters` | src/locations/ConfigScreen.tsx:34-55 | `parameters` becomes the initialised parameters for the persisted value and the defaults. |
| `ConfigScreen.ConfigScreenState.OnConfigure` | src/locations/ConfigScreen.tsx:58-61 | The save hook hands the host the working mapping. |
| `ConfigScreen.ConfigScreenState.UpdateInstallationParameters` | src/locations/ConfigScreen.tsx:68-79 | `parameters` becomes the upsert of the old mapping. An absent mapping spreads as empty. |
| `ConfigScreen.ConfigScreenState.DeleteInstallationParameter` | src/locations/ConfigScreen.tsx:82-89 | `parameters` becomes the old mapping without `contentType`. |
| `ConfigScreen.ConfigScreenState.SyncWithDefaultConfig` | src/locations/ConfigScreen.tsx:92-109 | The preview becomes the sync candidate and the dialog opens. The frame leaves `parameters` untouched. |
| `ConfigScreen.ConfigScreenState.AcceptChanges` | src/locations/ConfigScreen.tsx:112-117 | With a preview, `parameters` becomes the preview; without one, it is unchanged. The dialog closes. |
| `ConfigScreen.ConfigScreenState.RejectChanges` | src/locations/ConfigScreen.tsx:119-122 | The preview is cleared and the dialog closes. The frame leaves `parameters` untouched. |
| `ConfigScreen.ConfigScreenState.MergeNewGuides` | src/locations/ConfigScreen.tsx:125-142 | `parameters` becomes the merge of the batch. `createdGuides` is the batch's content types in input order, duplicates included. |
| `ConfigScreen.ConfigScreenState.DismissCreatedGuides` | src/locations/ConfigScreen.tsx:164 | Closing the "Guides Created" note sets `createdGuides` back to null. |
| `ConfigScreen.ConfigScreenState.SubmitNewGuides` | src/locations/ConfigScreen.tsx:241-250 | The form is validated against the working mapping. With no collision the whole batch is merged. On that path the form's error and in-use list keep their old values. Otherwise nothing is merged, and the form records the error and the colliding types. |
| `CreateGuides.SetField` | src/components/CreateContentTypeGuides.tsx:64 | The written field reads back as the new value. Every other field reads as before. |
| `CreateGuides.SetFieldToOwnValue` | src/components/CreateContentTypeGuides.tsx:64 | Writing a field's own value back leaves the row unchanged. |
| `CreateGuides.SetFieldTwice` | src/components/CreateContentTypeGuides.tsx:64 | Of two writes to the same field, the later one wins. |
| `CreateGuides.RemoveAt` | src/components/CreateContentTypeGuides.tsx:54-56 | An in-range index drops exactly that row and keeps the others in order. An out-of-range index changes nothing. |
| `CreateGuides.CreateGuidesForm.constructor` | src/components/CreateContentTypeGuides.tsx:34-44 | The form starts with one row of three empty fields, no error and no in-use list. |
| `CreateGuides.CreateGuidesForm.AddGuide` | src/components/CreateContentTypeGuides.tsx:46-52 | One blank row is appended, and earlier rows are unchanged. |
| `CreateGuides.CreateGuidesForm.RemoveGuide` | src/components/CreateContentTypeGuides.tsx:54-56 | The rows become the removal at `index`. It is offered only with more than one row (lines 133-140), so the form never becomes empty. |
| `CreateGuides.CreateGuidesForm.ChangeGuide` | src/components/CreateContentTypeGuides.tsx:58-66 | Exactly one field of one row changes. All other fields and rows are unchanged. |
| `CreateGuides.CreateGuidesForm.Save` | src/components/CreateContentTypeGuides.tsx:68-80 | The row content types in row order go to `validate`. A non-empty answer sets the error and the in-use list, and nothing is saved. An empty answer hands over the full row list unchanged. |
| `Sidebar.FindContentType` | src/locations/Sidebar.tsx:29-32 | Returns the entry keyed by the content type. Returns nothing when the key or the mapping is absent. |
| `Sidebar.ResolveGuideId` | src/locations/Sidebar.tsx:35-36 | A present override is returned, even `""`. Otherwise the default is returned. The result is null only when there is no entry or both ids are null. |
| `Sidebar.IframeSrc` | src/locations/Sidebar.tsx:44-46 | The URL is the fixed prefix, then the id, then the fixed query suffix. |
| `Sidebar.EmbeddedIdOfIframeSrc` | src/locations/Sidebar.tsx:45 | The id can be read back from the embed URL. |
| `Sidebar.SelectView` | src/locations/Sidebar.tsx:52-77 | A null or `""` id gives the no-tutorial message. Otherwise the Go button shows until the click, then the video with the URL of that id. |
| `Sidebar.BlankOverrideHidesDefault` | src/locations/Sidebar.tsx:36 | After an upsert with a `""` override, the widget shows the no-tutorial message whatever the default is. |
| `Sidebar.SyncRestoresDefault` | src/locations/ConfigScreen.tsx:101 | For a content type in the defaults, a sync turns a `""` override into null, so the sidebar resolves the default again. |
| `Sidebar.SyncKeepsBlankOutsideDefaults` | src/locations/ConfigScreen.tsx:95 | For a content type not in the defaults, a sync carries a `""` override through unchanged, so the sidebar still resolves `""` and shows the no-tutorial message. |
| `Sidebar.SidebarState.constructor` | src/locations/Sidebar.tsx:26-27 | The widget starts with no id and the video hidden. |
| `Sidebar.SidebarState.ResolveVideo` | src/locations/Sidebar.tsx:34-38 | The id becomes the resolution of the current content type's entry. The click flag is not in its frame. |
| `Sidebar.SidebarState.HandleButtonClick` | src/locations/Sidebar.tsx:40-42 | The flag becomes true. No method sets it back to false. |
| `Sidebar.SidebarState.CurrentView` | src/locations/Sidebar.tsx:48-77 | The video is shown only after the click, and with the URL of the resolved id. |
| `Utils.ToUpper` | src/utils/index.ts:6 | A lower-case ASCII letter becomes its upper-case letter. Every other character is unchanged. The result is never lower case. |
| `Utils.InsertSpaces` | src/utils/index.ts:5 | The scan never shortens its input and keeps the first character. |
| `Utils.InsertSpacesFrom` | src/utils/index.ts:5 | The left-to-right regular-expression scan puts a space after exactly the positions where a lower-case letter precedes an upper-case one. Nothing else is added or removed. |
| `Utils.InsertSpacesIsSpaced` | src/utils/index.ts:5 | The same statement for the whole input. |
| `Utils.InsertSpacesLength` | src/utils/index.ts:5 | The output length is the input length plus the number of adjacent lower-case/upper-case positions. |
| `Utils.CapitalizeFirst` | src/utils/index.ts:6 | Only the first character is upper-cased. The others and the length are unchanged. |
| `Utils.ContentTypeIdToReadable` | src/utils/index.ts:3-7 | An empty input gives an empty output. The first character is upper-cased, and the rest is the spaced input. |
| `Utils.ReadableLength` | src/utils/index.ts:4-6 | The readable name is longer than the identifier by the number of adjacent lower-case/upper-case positions. |
| `Utils.InsertSpacesLeavesNoBoundary` | src/utils/index.ts:5 | After the scan, no lower-case letter is directly followed by an upper-case one. |
| `Utils.InsertSpacesFixpoint` | src/utils/index.ts:5 | An input with no such position is returned unchanged. |
| `Utils.CapitalizeKeepsNoBoundary` | src/utils/index.ts:6 | Upper-casing the first character creates no such position. |
| `Utils.ReadableIdempotent` | src/utils/index.ts:4-6 | Making a name readable twice gives the same result as once. |

## Left out

- Host SDK calls are not modelled: `getParameters`, `setReady`, `onConfigure` registration, `getCurrentState` and `startAutoResizer`. Persisted parameters, defaults and the sidebar's inputs are plain values. The `targetState` returned by the save hook comes from the host and is not modelled.
- React effects, asynchrony, JSX markup and the CSS are left out. The `showAddNewGuideModal` flag and the closing of dialogs are also out. These are presentation.
- The default configuration's JSON import and its React context (`src/context/ConfigContext.tsx`) are not modelled. The defaults are a constant of the screen.
- The table, edit and delete dialogs are not modelled; they only forward to the upsert and delete handlers. The edit dialog sends `guideId || ''`, so `Upsert` accepts a `Some("")` override. `Upsert` also takes the default as `Option<string>`, because the edit dialog forwards an entry's default, which may be null.
- `Utils.ToUpper` maps only ASCII letters, and `[a-z]`/`[A-Z]` are ASCII ranges. Non-ASCII case mapping, which can change a string's length, is not modelled. So the length and idempotence lemmas cover the ASCII case mapping only.
- JavaScript object-key quirks are not modelled. Content-type ids such as `__proto__` or `hasOwnProperty` would behave differently on a plain object than on the map used here.
- `CreateGuides.CreateGuidesForm.ChangeGuide`: the source writes the field into a row object that the previous array shares. The model replaces the row by value, so it does not capture that aliasing.
- `CreateGuides.CreateGuidesForm.ChangeGuide`: it requires an index of a rendered row. In the source, an out-of-range index throws, and no caller passes one.
