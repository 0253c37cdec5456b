# mcf core, modelled in Dafny

This project models the core of the `mcf` media framework (Rust) and proves
properties of the model. It covers four parts.

- **The typed property store.** There are two copies of it:
  `Properties`/`PropertyValue` in `src/structures/properties.rs` and
  `Object`/`ObjectValues` in `crates/core/src/structures/object.rs`. Each is a
  string-keyed hash map of a closed tagged union with `get`, `keys`, `values`,
  `values_mut`, `find`, `filter`, `filter_mut`, `set`, `remove` and `clear`,
  plus a null-guarded C boundary. Both files hold the same code, so the store
  is written once as the generic class `KeyedStore.Store<V>`. `Properties` and
  `Objects` define the two value unions. `Objects.StoresAgree` shows the two
  stores correspond under the variant-for-variant conversion, taking the
  geometry and color-space payload types of both files to be the same.
- **The video profile and its builder** (`src/profile.rs`). This covers the
  profile record and the fps/SAR/DAR metrics, and `ProfileFactory` as a class
  whose setters overwrite one field each.
- **The build-time preset compiler** (`build/generate_presets.rs`).
  - The file system is a finite `Entry` tree, and the parsed documents are
    `Json` values.
  - `GeneratePresets` is the imperative worklist walk. It is split into
    `PopDirectory` (one pass of the `while` loop), `ScanListing` (the `for`
    loop over a listing) and `ScanEntry`/`AppendBlock` (one entry).
  - The method is proved equal to `Generate`, a reference definition. That
    definition is a depth-first `Trace` of the tree, then `Extract` of the
    required fields, then `Blocks` of text between the fixed header and footer.
  - The properties are then proved about `Generate`: success exactly when every
    document is accepted, one block per file, each directory popped once,
    key collisions, and last-insert-wins in the generated map.
- **Supporting types.** These are `Buffer` and its lengths, the 14-variant
  `repr(u8)` `ColorSpace`, and `Frame` with `FrameBuilder` and the null-guarded
  C getters and setters.

Modelling choices:
- An `f32` is its 32-bit pattern (`Geometry.F32`). Division is a parameter of
  type `Geometry.Division`, so the model proves which fields feed each metric
  and never computes a float.
- A Rust `HashMap` iterates in an unspecified order. Each iterating method of
  `Store` picks an enumeration of the keys (`IsEnumeration`) and returns it as
  a ghost out-parameter, so its contract can speak of that order.
- A raw pointer is a nullable reference (`Store?`, `Frame?`) or an `Option`.
  A C string is `Option<seq<bv8>>`. `CStr::to_str` is the parameter `toStr`.
- The integer widths `i8`, `i16`, `i32`, `i64` and `u8` are range-checked
  newtypes (`Ints`).

Notes on the source:
- `Profile` has no render-type field, although `RenderType` is declared beside it.
- The builder is `ProfileFactory`, and its explicit-type setter is spelled
  `set_explict_type`.
- `build` takes the factory by value. The model returns the accumulated profile
  and leaves the object in place.
- The generated text calls `ProfileBuilder`, `set_explicit_type` and
  `set_render_type`. The model emits exactly that text.
- `calculate_dar` divides the display-aspect number by the sample-aspect
  denominator. The model keeps this (`Profiles.CalculateDar`,
  `Profiles.DarIgnoresDisplayDenominator`).

## Model

| member | source | states |
|---|---|---|
| KeyedStore.Store.constructor | src/structures/properties.rs:26-30 | the default store is empty |
| KeyedStore.Store.Get | src/structures/properties.rs:33-35 | a value is returned exactly when the key is stored, and it is the stored value |
| KeyedStore.Store.Keys | src/structures/properties.rs:37-39 | yields every stored key exactly once and nothing else |
| KeyedStore.EnumerationLength | src/structures/properties.rs:37-43 | any iteration of the map visits as many keys as the map holds |
| KeyedStore.Store.Values | src/structures/properties.rs:41-43 | yields the stored value of each key of some enumeration, position by position |
| KeyedStore.Store.ValuesMut | src/structures/properties.rs:45-47 | each value becomes whatever the caller writes for its key and old value; the key set is unchanged |
| KeyedStore.ValuesMutKeepsSize | src/structures/properties.rs:45-47 | after `values_mut` every iteration still has the old number of entries |
| KeyedStore.Store.Find | src/structures/properties.rs:49-54 | `None` iff no stored entry satisfies the predicate; otherwise the pair is stored, satisfies it, and is the first such pair in iteration order |
| KeyedStore.SelectedEntries | src/structures/properties.rs:56-64 | along an enumeration, the selected entries are exactly the stored ones that pass the test, each key once |
| KeyedStore.Store.Filter | src/structures/properties.rs:56-64 | an entry is yielded iff it is stored and satisfies the predicate; no key twice; yielded in iteration order |
| KeyedStore.PickedEntries | src/structures/properties.rs:66-74 | along an enumeration, the picked keys are exactly the stored keys the transform maps to `Some`, each once, paired with its results |
| KeyedStore.Store.FilterMut | src/structures/properties.rs:66-74 | yields `f(k, v)` for exactly the entries where `f` returns `Some`, each once, in iteration order; the store is not changed (no `modifies`) |
| KeyedStore.Store.Set | src/structures/properties.rs:76-79 | the map becomes old[key := value]: `get(key)` is the value, the key set gains the key, and every other key keeps its value |
| KeyedStore.Store.Remove | src/structures/properties.rs:81-83 | returns the previous value or `None`; the key is gone and every other entry is kept |
| KeyedStore.Store.Clear | src/structures/properties.rs:85-87 | the map is empty |
| KeyedStore.ClearedStoreIsEmpty | src/structures/properties.rs:85-87 | after `clear`, `keys` and `values` yield nothing |
| KeyedStore.DecodedKey | src/structures/properties.rs:120 | a key is used iff the pointer is non-null and the bytes are valid UTF-8 |
| KeyedStore.CreatePropertyMap | src/structures/properties.rs:103-107 | a fresh, empty map |
| KeyedStore.InsertProperty | src/structures/properties.rs:109-125 | null map, key or value pointer, or a non-UTF-8 key: no change; otherwise the value is stored under the key and nothing else changes |
| KeyedStore.RemoveProperty | src/structures/properties.rs:127-137 | null map or key, or a non-UTF-8 key: no change; otherwise exactly that key is removed |
| KeyedStore.ClearPropertyMap | src/structures/properties.rs:139-146 | empties a non-null map; null is ignored |
| Objects.ToPropertyValue | crates/core/src/structures/object.rs:11-25 | each of the nine variants maps to the property variant of the same name with the same payload |
| Objects.FromPropertyValue | crates/core/src/structures/object.rs:11-25 | each of the nine property variants maps to the object variant of the same name with the same payload |
| Objects.ValuesCorrespond | crates/core/src/structures/object.rs:11-25 | the two unions are in bijection variant for variant, and their defaults correspond |
| Objects.AsProperties | crates/core/src/structures/object.rs:27-31 | the same keys, each value converted |
| Objects.StoresAgree | crates/core/src/structures/object.rs:77-88 | `set`, `remove` and `clear` on an object store and on a property store commute with the conversion |
| Profiles.CalculateFps | src/profile.rs:54-56 | the same quotient `calculate_sar` takes, applied to the frame-rate ratio; partner `MetricInputs` (it reads only the frame rate) |
| Profiles.CalculateSar | src/profile.rs:59-61 | the sample-aspect quotient; partners `MetricInputs` (it reads only the sample aspect) and `DarDividesBySampleDenominator` |
| Profiles.CalculateDar | src/profile.rs:64-66 | the SAR of the profile whose sample-aspect number is replaced by the display-aspect number; partners `MetricInputs`, `DarIgnoresDisplayDenominator` and `DarDividesBySampleDenominator` |
| Profiles.MetricInputs | src/profile.rs:52-66 | each metric depends only on the fields it reads, whatever the division |
| Profiles.DarIgnoresDisplayDenominator | src/profile.rs:63-66 | changing the display-aspect denominator never changes `calculate_dar` |
| Profiles.DarDividesBySampleDenominator | src/profile.rs:64-66 | under a division returning its divisor, DAR is the sample-aspect denominator, and so equals SAR |
| Profiles.Apply | src/profile.rs:76-104 | the targeted field takes the setter's argument and the other five fields are kept |
| Profiles.LastWriteWins | src/profile.rs:76-104 | a repeated set of one field keeps only the last value |
| Profiles.SettersCommute | src/profile.rs:76-104 | sets of different fields commute |
| Profiles.ApplyAllAppend | src/profile.rs:76-104 | two setter chains run one after the other equal their concatenation |
| Profiles.UntargetedFieldKept | src/profile.rs:76-104 | a field no setter in a chain targets keeps its value |
| Profiles.LastSetterOfFieldWins | src/profile.rs:76-104 | after any chain, a field holds the argument of its last setter |
| Profiles.ProfileFactory.constructor | src/profile.rs:72-74 | starts from `Profile::default()`: zero frame, three 0/0 ratios, color space `None`, explicit type `Computed` |
| Profiles.ProfileFactory.SetFrameRate | src/profile.rs:76-79 | overwrites the frame rate only |
| Profiles.ProfileFactory.SetFrame | src/profile.rs:81-84 | overwrites the frame only |
| Profiles.ProfileFactory.SetSampleAspect | src/profile.rs:86-89 | overwrites the sample aspect only |
| Profiles.ProfileFactory.SetDisplayAspect | src/profile.rs:91-94 | overwrites the display aspect only |
| Profiles.ProfileFactory.SetColorSpace | src/profile.rs:96-99 | overwrites the color space only |
| Profiles.ProfileFactory.SetExplictType | src/profile.rs:101-104 | overwrites the explicit type only |
| Profiles.ProfileFactory.Build | src/profile.rs:106-108 | returns exactly the accumulated profile |
| Buffers.ElementWidth | crates/core/src/structures/buffer.rs:22-29 | the element size is 1, 2, 4 or 4 for U8, I16, I32 and F32 |
| Buffers.LenElems | crates/core/src/structures/buffer.rs:13-20 | the length of the active variant's vector |
| Buffers.LenBytes | crates/core/src/structures/buffer.rs:22-29 | elements times element size; at least the element count, with equality iff U8 or empty; zero iff empty |
| Buffers.LengthsIgnoreElements | crates/core/src/structures/buffer.rs:13-29 | both lengths depend only on the element width and count, never on the elements |
| Buffers.FourI32Samples | crates/core/src/structures/buffer.rs:17-26 | four `i32` samples are 4 elements and 16 bytes |
| ColorSpaces.Ordinal | src/color/spaces.rs:4-21 | the discriminant fits in u8, is below 14, and indexes the variant in declaration order |
| ColorSpaces.FromOrdinal | src/color/spaces.rs:4-21 | defined exactly for 0..13, and inverse to `Ordinal` |
| ColorSpaces.VariantsListedOnce | src/color/spaces.rs:5-21 | exactly 14 variants, each listed once |
| ColorSpaces.OrdinalRoundTrip | src/color/spaces.rs:3-21 | discriminants are injective, so equal discriminants mean equal variants |
| ColorSpaces.OrdinalValues | src/color/spaces.rs:5-21 | the default is `Invalid` = 0; `Rgb` = 3, `Bt709` = 5, `Ycgco` = 13 |
| VideoFrame.Frame.constructor | src/frame.rs:9-20 | every field of `Frame::default()` |
| VideoFrame.FrameBuilder.constructor | src/frame.rs:25-27 | stages a fresh default frame |
| VideoFrame.FrameBuilder.SetProfile | src/frame.rs:29-32 | overwrites the staged profile only |
| VideoFrame.FrameBuilder.SetAspectRatio | src/frame.rs:34-37 | overwrites the aspect ratio only |
| VideoFrame.FrameBuilder.SetViewport | src/frame.rs:39-42 | overwrites the viewport only |
| VideoFrame.FrameBuilder.SetProperties | src/frame.rs:44-47 | overwrites the properties only, with the store's contents |
| VideoFrame.FrameBuilder.SetMeta | src/frame.rs:49-52 | overwrites the metadata only |
| VideoFrame.FrameBuilder.SetPosition | src/frame.rs:54-57 | overwrites the position only |
| VideoFrame.FrameBuilder.SetSpeed | src/frame.rs:59-62 | overwrites the speed only |
| VideoFrame.FrameGetProfile | src/frame.rs:77-84 | `None` iff the frame is null, else the profile; reads only |
| VideoFrame.FrameGetAspectRatio | src/frame.rs:86-95 | `None` iff the frame is null, else the aspect ratio |
| VideoFrame.FrameGetViewport | src/frame.rs:97-104 | `None` iff the frame is null, else the viewport |
| VideoFrame.FrameGetPosition | src/frame.rs:115-122 | `None` iff the frame is null, else the position |
| VideoFrame.FrameSetProfile | src/frame.rs:128-133 | on a non-null frame only the profile changes; null is ignored |
| VideoFrame.PositionSetAspectRatio | src/frame.rs:135-143 | on a non-null frame only the aspect ratio changes |
| VideoFrame.PositionSetViewport | src/frame.rs:145-150 | on a non-null frame only the viewport changes |
| VideoFrame.PositionSetSpeed | src/frame.rs:152-157 | on a non-null frame only the speed changes |
| VideoFrame.SetThenGet | src/frame.rs:128-150 | a getter after the matching setter returns the value just set; all `None` for a null frame |
| Json.AsStr | build/generate_presets.rs:48 | `as_str` succeeds exactly on strings, with their text |
| Json.AsObject | build/generate_presets.rs:49 | `as_object` succeeds exactly on objects, with their fields |
| Json.AsI64 | build/generate_presets.rs:65-66 | `as_i64` succeeds exactly on integers in the i64 range, with their value |
| Decimal.NatText | build/generate_presets.rs:60-67 | the digits of a number: all decimal digits, no leading zero |
| Decimal.IntText | build/generate_presets.rs:60-96 | the `{}` text of an i64; partners `IntTextRoundTrip` and `IntTextInjective` |
| Decimal.NatTextValue | build/generate_presets.rs:60-67 | the digit text reads back as the number |
| Decimal.IntTextRoundTrip | build/generate_presets.rs:60-67 | the `{}` text of an i64 parses back to the same number |
| Decimal.IntTextInjective | build/generate_presets.rs:60-67 | distinct numbers get distinct literals |
| PresetCompiler.ExtractFields | build/generate_presets.rs:46-96 | the eight fields and four number pairs read in the compiler's order, or the first panic; partner `ExtractFieldsCorrect` |
| PresetCompiler.ExtractFieldsCorrect | build/generate_presets.rs:46-55 | extraction succeeds iff the document is an object with the eight fields of the right types, including i64 width/height and number/denominator; the values are then the document's own |
| PresetCompiler.ExtractFailureSticks | build/generate_presets.rs:44-55 | once a document fails the build has failed, whatever follows |
| PresetCompiler.ExtractAccepts | build/generate_presets.rs:44-55 | the steps yield presets iff every emitted document is accepted, and then one preset per file step |
| PresetCompiler.KeySeparatesCategories | build/generate_presets.rs:118-120 | equal descriptions give equal keys only for equal directory names |
| PresetCompiler.KeysCollideAcrossDirectories | build/generate_presets.rs:119 | the description is not escaped: `"HD"` + `"1080p - 30"` and `"HD - 1080p"` + `"30"` give the same key |
| PresetCompiler.CatalogKey | build/generate_presets.rs:119 | the directory name, `" - "`, the description, unescaped; partners `KeySeparatesCategories` and `KeysCollideAcrossDirectories` |
| PresetCompiler.Catalog | build/generate_presets.rs:118-120 | the map `get_profiles` builds by inserting in emission order; partners `CatalogKeys` and `CatalogLastWins` |
| PresetCompiler.CatalogKeys | build/generate_presets.rs:118-120 | the generated map's keys are exactly the emitted keys |
| PresetCompiler.CatalogLastWins | build/generate_presets.rs:118-120 | on a key collision the map keeps the preset emitted last |
| PresetCompiler.RenderBlock | build/generate_presets.rs:57-121 | the text one file contributes; partners `BlockShape` and `Decimal.IntTextRoundTrip` for its numbers |
| PresetCompiler.BlockShape | build/generate_presets.rs:57-121 | every block is `BlockOpen`, then the builder calls of `ChainCalls` in order (frame, frame rate, sample aspect, display aspect, color space, explicit type, render type, `build()`), then the insertion of the profile under the preset's key |
| PresetCompiler.Blocks | build/generate_presets.rs:57-121 | the blocks of the presets in emission order; partner `BlocksAppend` |
| PresetCompiler.BlocksAppend | build/generate_presets.rs:57-121 | each file adds its block after the earlier ones |
| PresetCompiler.Subdirs | build/generate_presets.rs:38-40 | only directories are pushed |
| PresetCompiler.SubdirsOfListing | build/generate_presets.rs:35-40 | every directory of the listing is pushed, and nothing else |
| PresetCompiler.SubdirsAppend | build/generate_presets.rs:35-40 | directories are pushed in listing order |
| PresetCompiler.LocalFilesOfListing | build/generate_presets.rs:35-43 | every block a listing contributes is for one of its own files, under the popped directory's name |
| PresetCompiler.PushSubdirs | build/generate_presets.rs:31-41 | pushing a listing's subdirectories owes their walks, the last listed first, before the rest of the stack |
| PresetCompiler.DirTrace | build/generate_presets.rs:29-41 | the depth-first order the stack produces: a directory, its files, then its subdirectories last-listed first; partners `DirTraceCovers`, `DirTraceTallies` and `GeneratePresets` |
| PresetCompiler.Trace | build/generate_presets.rs:28-41 | the walk from the `presets` directory; partner `BuildSucceedsIffAllAccepted` |
| PresetCompiler.DirTraceCovers | build/generate_presets.rs:29-41 | the walk has as many `Emit` steps as there are files below the directory, 1 + (directories below it) `Visit` steps, and every emitted document is accepted iff every file below is well-formed |
| PresetCompiler.DirTraceTallies | build/generate_presets.rs:29-43 | as multisets, the walk's `Emit` steps are exactly the files at any depth, each once, under the name of the directory that holds it; its `Visit` steps are the directory itself and every directory below it, each once |
| PresetCompiler.BuildSucceedsIffAllAccepted | build/generate_presets.rs:28-55 | the build succeeds iff every file under `presets` is accepted; it then has one preset per file; the walk emits every file of the tree exactly once and pops `presets` and every directory below it exactly once |
| PresetCompiler.Generate | build/generate_presets.rs:17-125 | the reference result: header, the blocks of the walk's presets, footer, or the first panic; partners `GeneratePresets` and `BuildSucceedsIffAllAccepted` |
| PresetCompiler.GeneratePresets | build/generate_presets.rs:17-125 | the worklist loop produces `Generate`: header, then blocks in depth-first order, then `"    map\n}"`, or the first file's panic; its trace is the reference walk, or a prefix of it on failure |
| PresetCompiler.PopDirectory | build/generate_presets.rs:31-41 | one pass keeps the owed walk unchanged and strictly extends the trace |
| PresetCompiler.ScanListing | build/generate_presets.rs:35-122 | pushes the listing's directories and emits its files in listing order, or stops at the first failing file |
| PresetCompiler.ScanEntry | build/generate_presets.rs:38-121 | a directory is pushed; a file adds its preset and block, or fails with its extraction error |
| PresetCompiler.AppendBlock | build/generate_presets.rs:57-121 | the generated text grows by exactly the block of the preset |

## Left out

- Float arithmetic: `calculate_fps`, `calculate_sar` and `calculate_dar` are stated with a division parameter. No numeric result such as fps = 30.0 is proved, and division by zero is not modelled.
- `calculate_scale_width` and `calculate_scale_height` in `src/geometry.rs`: bare `f32` divisions, left out for the same reason. `Rect` is not defined in the modelled files; the model assumes four sides, and no property reads them.
- File-system I/O in the preset compiler: `create_dir_all`, the `cargo::rerun-if-changed` line and `fs::write` are left out. The listing order of `read_dir` is the given child order. A failed read or parse is a document of `None`. I/O errors of `read_dir` and `metadata` are not modelled.
- serde_json parsing is replaced by the `Json` datatype and the parse outcome. The serde `Serialize`/`Deserialize` derives are left out.
- `CStr::to_str` is a library call, so the model takes UTF-8 decoding as the parameter `toStr`.
- Raw-pointer casts, `Box::into_raw` ownership, memory release, `#[repr(C)]` layout and symbol export are left out. `Buffer::as_ptr` and `as_mut_ptr` are left out too.
- KeyedStore.Store.Find, KeyedStore.Store.Filter and KeyedStore.Store.FilterMut: the Rust callbacks are `FnMut` closures, which may keep and change state between calls; the model takes them as side-effect-free functions of the key and value. `filter` and `filter_mut` return lazy iterators that run the closure only as far as the caller reads; the model returns the complete sequence.
- KeyedStore.Store.Keys: a `HashMap` may iterate in a different order on each call. The model picks some enumeration on each call and does not relate the orders of two calls.
- Objects.ValuesCorrespond and Objects.StoresAgree: `object.rs` takes `Position` and `Rect` from the `mcf_math` crate and `ColorSpace` from `crates/core`'s own `color` module; neither is part of this model, so the payloads reuse `Geometry` and `ColorSpaces`, and both lemmas hold only if those types are the same.
- The C boundary of `object.rs` exists only when the `ffi` feature is enabled; the model does not track that feature.
- PresetCompiler.Catalog, PresetCompiler.CatalogKeys and PresetCompiler.CatalogLastWins: the key is the raw text `"<dir> - <description>"`, but the generated program reads it as a Rust string literal. They hold for keys without `\` or `"`; with a backslash the literal's escapes change the key, and a `"` ends the literal early.
- The FFI `PropertyMap` wraps a bare `HashMap`. The model uses the same store class for it.
- `Frame.properties` holds the moved store's contents (a map), not a separate store object.
- Profiles.ProfileFactory.Build: `build(self)` consumes the factory. The model returns the profile without invalidating the object.
- Whether the generated preset source compiles against `src/profile.rs` is not modelled.
- Concurrency: there is none in these files.
