/**
 * The build-time preset compiler (build/generate_presets.rs).
 *
 * It walks the `presets` directory with an explicit stack of directories,
 * reads every file as a JSON object with eight required fields, and appends
 * to a Rust source text one block per file that builds a profile and inserts
 * it into a map under "<directory> - <description>". Any unreadable document
 * or missing or mistyped field panics, and then no output file is written.
 *
 * The file system is a finite tree whose directory listings are given in the
 * order `read_dir` returns them; a file's content is the outcome of reading
 * and parsing it.
 */
module PresetCompiler {
  import opened Wrappers
  import opened Ints
  import opened Json
  import Decimal

  /** `PRESETS_PATH`: the root directory, and so the category of the files directly in it. */
  const PresetsPath: string := "presets"

  /** A directory entry: a file with its parsed content (`None` if it could not be read or parsed), or a directory. */
  datatype Entry =
    | File(name: string, document: Option<Json>)
    | Dir(name: string, children: seq<Entry>)

  /** Why the build panics. */
  datatype BuildError =
    | Unparsable(file: string)
    | MissingField(file: string, field: string)
    | WrongType(file: string, field: string)

  /** The two numbers of an object field: width and height, or number and denominator. */
  datatype IntPair = IntPair(first: I64, second: I64)

  /** The eight required fields of a preset document. */
  datatype PresetFields = PresetFields(
    description: string,
    frame: IntPair,
    frameRate: IntPair,
    sampleAspect: IntPair,
    displayAspect: IntPair,
    explicitType: string,
    renderType: string,
    colorSpace: string)

  /** A preset ready to emit: the directory it came from and its fields. */
  datatype Preset = Preset(category: string, fields: PresetFields)

  // ---------------------------------------------------------------------------
  // Field extraction.
  // ---------------------------------------------------------------------------

  /** `json.get(field).unwrap().as_str().unwrap()`. */
  function RequireStr(file: string, doc: map<string, Json>, field: string): Result<string, BuildError> {
    if field !in doc then Failure(MissingField(file, field))
    else if AsStr(doc[field]).None? then Failure(WrongType(file, field))
    else Success(AsStr(doc[field]).value)
  }

  /** `json.get(field).unwrap().as_object().unwrap()`. */
  function RequireObject(file: string, doc: map<string, Json>, field: string): Result<map<string, Json>, BuildError> {
    if field !in doc then Failure(MissingField(file, field))
    else if AsObject(doc[field]).None? then Failure(WrongType(file, field))
    else Success(AsObject(doc[field]).value)
  }

  /** `obj.get(field).unwrap().as_i64().unwrap()`, for the object stored under `parent`. */
  function RequireI64(file: string, obj: map<string, Json>, parent: string, field: string): Result<I64, BuildError> {
    if field !in obj then Failure(MissingField(file, parent + "." + field))
    else if AsI64(obj[field]).None? then Failure(WrongType(file, parent + "." + field))
    else Success(AsI64(obj[field]).value)
  }

  function RequirePair(file: string, obj: map<string, Json>, parent: string, first: string, second: string): Result<IntPair, BuildError> {
    var a :- RequireI64(file, obj, parent, first);
    var b :- RequireI64(file, obj, parent, second);
    Success(IntPair(a, b))
  }

  /**
   * The fields of one preset document, checked in the order the compiler reads
   * them: the eight top-level fields, then the two numbers of each object.
   */
  function ExtractFields(file: string, document: Option<Json>): Result<PresetFields, BuildError> {
    if document.None? || !document.value.JObject? then Failure(Unparsable(file))
    else
      var doc := document.value.fields;
      var description :- RequireStr(file, doc, "description");
      var frame :- RequireObject(file, doc, "frame");
      var frameRate :- RequireObject(file, doc, "frame_rate");
      var sampleAspect :- RequireObject(file, doc, "sample_aspect");
      var displayAspect :- RequireObject(file, doc, "display_aspect");
      var explicitType :- RequireStr(file, doc, "explicit_type");
      var renderType :- RequireStr(file, doc, "render_type");
      var colorSpace :- RequireStr(file, doc, "color_space");
      var size :- RequirePair(file, frame, "frame", "width", "height");
      var rate :- RequirePair(file, frameRate, "frame_rate", "number", "denominator");
      var sample :- RequirePair(file, sampleAspect, "sample_aspect", "number", "denominator");
      var display :- RequirePair(file, displayAspect, "display_aspect", "number", "denominator");
      Success(PresetFields(description, size, rate, sample, display, explicitType, renderType, colorSpace))
  }

  predicate HasString(doc: map<string, Json>, field: string) {
    field in doc && AsStr(doc[field]).Some?
  }

  predicate HasI64(obj: map<string, Json>, field: string) {
    field in obj && AsI64(obj[field]).Some?
  }

  predicate HasPair(doc: map<string, Json>, field: string, first: string, second: string) {
    field in doc && AsObject(doc[field]).Some?
    && HasI64(AsObject(doc[field]).value, first) && HasI64(AsObject(doc[field]).value, second)
  }

  /** A document the compiler accepts: an object with all eight fields of the right types. */
  predicate WellFormed(document: Option<Json>) {
    && document.Some? && document.value.JObject?
    && var doc := document.value.fields;
    && HasString(doc, "description")
    && HasPair(doc, "frame", "width", "height")
    && HasPair(doc, "frame_rate", "number", "denominator")
    && HasPair(doc, "sample_aspect", "number", "denominator")
    && HasPair(doc, "display_aspect", "number", "denominator")
    && HasString(doc, "explicit_type")
    && HasString(doc, "render_type")
    && HasString(doc, "color_space")
  }

  function PairOf(doc: map<string, Json>, field: string, first: string, second: string): IntPair
    requires HasPair(doc, field, first, second)
  {
    var obj := AsObject(doc[field]).value;
    IntPair(AsI64(obj[first]).value, AsI64(obj[second]).value)
  }

  /**
   * Extraction succeeds exactly on well-formed documents, and then returns the
   * document's own values, taken verbatim.
   */
  lemma ExtractFieldsCorrect(file: string, document: Option<Json>)
    ensures ExtractFields(file, document).Success? <==> WellFormed(document)
    ensures WellFormed(document) ==>
      var doc := document.value.fields;
      ExtractFields(file, document).value == PresetFields(
        doc["description"].text,
        PairOf(doc, "frame", "width", "height"),
        PairOf(doc, "frame_rate", "number", "denominator"),
        PairOf(doc, "sample_aspect", "number", "denominator"),
        PairOf(doc, "display_aspect", "number", "denominator"),
        doc["explicit_type"].text,
        doc["render_type"].text,
        doc["color_space"].text)
  {
  }

  // ---------------------------------------------------------------------------
  // The emitted text.
  // ---------------------------------------------------------------------------

  /** The start of the generated file, up to the first block. */
  const Header: string :=
    "/// THIS FILE IS GENERATED IN `build/generate_presets.rs.\n"
    + "/// DON't MODIFIED THIS FILE AND DON'T PUSH IN GIT.\n"
    + "use std::collections::HashMap;\n"
    + "\n"
    + "pub fn get_profiles() -> HashMap<String, Profile> {\n"
    + "    let mut map: HashMap<String, Profile> = HashMap::new();\n"
    + "\n"

  /** The end of the generated file, after the last block. */
  const Footer: string := "    map\n}"

  /** An i64 printed with `{}` and followed by ` as f32`. */
  function FloatLiteral(n: I64): string {
    Decimal.IntText(n as int) + AsF32
  }

  // The fixed text around the values of a block.
  const AsF32: string := " as f32"
  const BlockOpen: string := "    {\n        let profile = ProfileBuilder::new()\n"
  const FrameOpen: string := "            .set_frame(geometry::Frame {\n                width: "
  const FrameMid: string := ",\n                height: "
  const RatioOpen: string := "(Ratio {\n                number: "
  const RatioMid: string := ",\n                denominator: "
  const StructClose: string := ",\n            })"
  const CallOpen: string := "\n            ."
  const BuildCall: string := "\n            .build();"
  const InsertOpen: string := "\n        map.insert(\""
  const InsertClose: string := "\".to_string(), profile);\n    }\n\n"

  function FrameCall(size: IntPair): string {
    FrameOpen + FloatLiteral(size.first) + FrameMid + FloatLiteral(size.second) + StructClose
  }

  function RatioCall(setter: string, ratio: IntPair): string {
    CallOpen + setter + RatioOpen + FloatLiteral(ratio.first) + RatioMid + FloatLiteral(ratio.second) + StructClose
  }

  /** A setter taking an enum variant named by the document, inserted verbatim. */
  function TagCall(setter: string, enumName: string, tag: string): string {
    CallOpen + setter + "(" + enumName + "::" + tag + ")"
  }

  /** The catalog key: the category, " - ", and the description verbatim (nothing is escaped). */
  function CatalogKey(category: string, description: string): string {
    category + " - " + description
  }

  function Key(p: Preset): string {
    CatalogKey(p.category, p.fields.description)
  }

  /** The pieces written one after the other, as the successive `push_str` calls do. */
  function Join(pieces: seq<string>): string {
    if pieces == [] then "" else Join(pieces[..|pieces| - 1]) + pieces[|pieces| - 1]
  }

  /** The builder calls of a block, in the order they are written. */
  function ChainCalls(f: PresetFields): seq<string> {
    [FrameCall(f.frame),
     RatioCall("set_frame_rate", f.frameRate),
     RatioCall("set_sample_aspect", f.sampleAspect),
     RatioCall("set_display_aspect", f.displayAspect),
     TagCall("set_color_space", "ColorSpace", f.colorSpace),
     TagCall("set_explicit_type", "ExplicitType", f.explicitType),
     TagCall("set_render_type", "RenderType", f.renderType),
     BuildCall]
  }

  /** The block one file contributes: open the builder, chain the calls, insert the profile. */
  function RenderBlock(p: Preset): string {
    Join([BlockOpen] + ChainCalls(p.fields) + [InsertOpen, Key(p), InsertClose])
  }

  /** Writing two runs of pieces writes the first run, then the second. */
  lemma {:induction false} JoinAppend(a: seq<string>, b: seq<string>)
    ensures Join(a + b) == Join(a) + Join(b)
    decreases |b|
  {
    if b == [] {
      assert a + b == a;
    } else {
      var b' := b[..|b| - 1];
      assert (a + b)[..|a + b| - 1] == a + b';
      JoinAppend(a, b');
    }
  }

  /**
   * Every block opens the builder, writes the builder calls of `ChainCalls`
   * one after the other (frame, the three ratios, color space, explicit type,
   * render type, then `build`), and ends by inserting the built profile into
   * the map under the preset's key.
   */
  lemma BlockShape(p: Preset)
    ensures RenderBlock(p) == BlockOpen + Join(ChainCalls(p.fields)) + InsertOpen + Key(p) + InsertClose
  {
    var calls := ChainCalls(p.fields);
    JoinThree([BlockOpen] + calls, InsertOpen, Key(p), InsertClose);
    JoinFirst(BlockOpen, calls);
  }

  lemma JoinThree(a: seq<string>, x: string, y: string, z: string)
    ensures Join(a + [x, y, z]) == Join(a) + x + y + z
  {
    var a1, a2, a3 := a + [x], a + [x, y], a + [x, y, z];
    assert a1[..|a1| - 1] == a && a1[|a1| - 1] == x;
    assert a2[..|a2| - 1] == a1 && a2[|a2| - 1] == y;
    assert a3[..|a3| - 1] == a2 && a3[|a3| - 1] == z;
    assert Join(a1) == Join(a) + x;
    assert Join(a2) == Join(a1) + y;
    assert Join(a3) == Join(a2) + z;
  }

  lemma JoinFirst(x: string, rest: seq<string>)
    ensures Join([x] + rest) == x + Join(rest)
  {
    JoinAppend([x], rest);
    assert [x][..0] == [];
  }

  /** The blocks of `presets`, in order. */
  function Blocks(presets: seq<Preset>): string {
    if presets == [] then ""
    else Blocks(presets[..|presets| - 1]) + RenderBlock(presets[|presets| - 1])
  }

  /**
   * Two presets with the same description get the same key only when their
   * directories have the same name.
   */
  lemma KeySeparatesCategories(c1: string, c2: string, description: string)
    requires CatalogKey(c1, description) == CatalogKey(c2, description)
    ensures c1 == c2
  {
    var k := CatalogKey(c1, description);
    assert |c1| == |c2|;
    assert c1 == k[..|c1|];
    assert c2 == k[..|c2|];
  }

  /**
   * The key is not escaped, so a description containing " - " can make files of
   * different directories collide: the later insert then replaces the earlier.
   */
  lemma KeysCollideAcrossDirectories()
    ensures CatalogKey("HD", "1080p - 30") == CatalogKey("HD - 1080p", "30")
  {
  }

  // ---------------------------------------------------------------------------
  // The map the generated `get_profiles` builds.
  // ---------------------------------------------------------------------------

  /** Inserting the presets' fields under their keys, in emission order. */
  function Catalog(presets: seq<Preset>): map<string, PresetFields> {
    if presets == [] then map[]
    else Catalog(presets[..|presets| - 1])[Key(presets[|presets| - 1]) := presets[|presets| - 1].fields]
  }

  /** The catalog's keys are exactly the presets' keys. */
  lemma {:induction false} CatalogKeys(presets: seq<Preset>, k: string)
    ensures k in Catalog(presets) <==> exists i :: 0 <= i < |presets| && Key(presets[i]) == k
  {
    if presets != [] {
      var init := presets[..|presets| - 1];
      CatalogKeys(init, k);
      if k in Catalog(init) {
        var i :| 0 <= i < |init| && Key(init[i]) == k;
        assert Key(presets[i]) == k;
      }
      if exists i :: 0 <= i < |presets| && Key(presets[i]) == k {
        var i :| 0 <= i < |presets| && Key(presets[i]) == k;
        if i < |init| {
          assert Key(init[i]) == k;
        }
      }
    }
  }

  /** On a key collision the preset emitted last is the one the catalog keeps. */
  lemma {:induction false} CatalogLastWins(presets: seq<Preset>, i: nat)
    requires i < |presets|
    requires forall j :: i < j < |presets| ==> Key(presets[j]) != Key(presets[i])
    ensures Key(presets[i]) in Catalog(presets)
    ensures Catalog(presets)[Key(presets[i])] == presets[i].fields
  {
    if i < |presets| - 1 {
      var init := presets[..|presets| - 1];
      assert init[i] == presets[i];
      CatalogLastWins(init, i);
    }
  }

  // ---------------------------------------------------------------------------
  // The traversal.
  // ---------------------------------------------------------------------------

  /** What the traversal does: pop a directory, or emit the block of a file of `category`. */
  datatype Step =
    | Visit(dir: string)
    | Emit(category: string, file: string, document: Option<Json>)

  /** The files among `entries`, in listing order, as blocks of `category`. */
  function LocalFiles(category: string, entries: seq<Entry>): seq<Step> {
    if entries == [] then []
    else
      var last := entries[|entries| - 1];
      LocalFiles(category, entries[..|entries| - 1])
      + (if last.File? then [Emit(category, last.name, last.document)] else [])
  }

  /**
   * Every block a listing contributes is for one of its own files, under the
   * listing directory's name.
   */
  lemma {:induction false} LocalFilesOfListing(category: string, entries: seq<Entry>)
    ensures forall s :: s in LocalFiles(category, entries) ==>
              s.Emit? && s.category == category && File(s.file, s.document) in entries
  {
    if entries != [] {
      var init := entries[..|entries| - 1];
      LocalFilesOfListing(category, init);
      assert entries == init + [entries[|entries| - 1]];
    }
  }

  /** The directories among `entries`, in listing order: what the loop pushes. */
  function Subdirs(entries: seq<Entry>): (dirs: seq<Entry>)
    ensures forall i :: 0 <= i < |dirs| ==> dirs[i].Dir?
  {
    if entries == [] then []
    else
      var last := entries[|entries| - 1];
      Subdirs(entries[..|entries| - 1]) + (if last.Dir? then [last] else [])
  }

  /** Every directory of the listing is pushed, and nothing else. */
  lemma {:induction false} SubdirsOfListing(entries: seq<Entry>)
    ensures forall e :: e in Subdirs(entries) <==> e in entries && e.Dir?
  {
    if entries != [] {
      var init := entries[..|entries| - 1];
      SubdirsOfListing(init);
      assert entries == init + [entries[|entries| - 1]];
    }
  }

  /** A listing's directories are pushed in listing order: pushing two listings pushes each in turn. */
  lemma {:induction false} SubdirsAppend(a: seq<Entry>, b: seq<Entry>)
    ensures Subdirs(a + b) == Subdirs(a) + Subdirs(b)
    decreases |b|
  {
    if b == [] {
      assert a + b == a;
    } else {
      var b' := b[..|b| - 1];
      assert (a + b)[..|a + b| - 1] == a + b';
      SubdirsAppend(a, b');
    }
  }

  /**
   * The reference order, a depth-first walk: a directory is visited, then its
   * files in listing order, then its subdirectories, the last listed first.
   */
  function DirTrace(name: string, entries: seq<Entry>): seq<Step>
    decreases entries, 1
  {
    [Visit(name)] + LocalFiles(name, entries) + SubdirTraces(entries)
  }

  /** The walks of the subdirectories among `entries`, from the last listed to the first. */
  function SubdirTraces(entries: seq<Entry>): seq<Step>
    decreases entries, 0
  {
    if entries == [] then []
    else
      var last := entries[|entries| - 1];
      (if last.Dir? then DirTrace(last.name, last.children) else [])
      + SubdirTraces(entries[..|entries| - 1])
  }

  /** The whole walk from the presets directory. */
  function Trace(root: seq<Entry>): seq<Step> {
    DirTrace(PresetsPath, root)
  }

  /** The work still owed to a stack of directories: the top one first. */
  function StackTrace(stack: seq<Entry>): seq<Step> {
    if stack == [] then []
    else
      var top := stack[|stack| - 1];
      (if top.Dir? then DirTrace(top.name, top.children) else []) + StackTrace(stack[..|stack| - 1])
  }

  /** Pushing the subdirectories of a listing owes their walks, last listed first, before the rest. */
  lemma {:induction false} PushSubdirs(stack: seq<Entry>, entries: seq<Entry>)
    ensures StackTrace(stack + Subdirs(entries)) == SubdirTraces(entries) + StackTrace(stack)
  {
    if entries == [] {
      assert stack + [] == stack;
    } else {
      var init := entries[..|entries| - 1];
      var last := entries[|entries| - 1];
      PushSubdirs(stack, init);
      var pushed := stack + Subdirs(init);
      if last.Dir? {
        var walk := DirTrace(last.name, last.children);
        assert stack + Subdirs(entries) == pushed + [last];
        calc {
          StackTrace(stack + Subdirs(entries));
          StackTrace(pushed + [last]);
          { PushDir(pushed, last); }
          walk + StackTrace(pushed);
          walk + (SubdirTraces(init) + StackTrace(stack));
          { Assoc(walk, SubdirTraces(init), StackTrace(stack)); }
          (walk + SubdirTraces(init)) + StackTrace(stack);
          SubdirTraces(entries) + StackTrace(stack);
        }
      } else {
        assert Subdirs(entries) == Subdirs(init);
        assert SubdirTraces(entries) == SubdirTraces(init);
      }
    }
  }

  /** A directory pushed on a stack is owed its whole walk before the rest of the stack. */
  lemma PushDir(stack: seq<Entry>, dir: Entry)
    requires dir.Dir?
    ensures StackTrace(stack + [dir]) == DirTrace(dir.name, dir.children) + StackTrace(stack)
  {
    assert (stack + [dir])[..|stack|] == stack;
  }

  // ---------------------------------------------------------------------------
  // From steps to presets.
  // ---------------------------------------------------------------------------

  /** The presets of the `Emit` steps in order; the first document that fails stops everything. */
  function Extract(steps: seq<Step>): Result<seq<Preset>, BuildError> {
    if steps == [] then Success([])
    else
      var done :- Extract(steps[..|steps| - 1]);
      match steps[|steps| - 1]
      case Visit(_) => Success(done)
      case Emit(category, file, document) =>
        var fields :- ExtractFields(file, document);
        Success(done + [Preset(category, fields)])
  }

  /** Once a document has failed, later steps change nothing. */
  lemma {:induction false} ExtractFailureSticks(a: seq<Step>, b: seq<Step>)
    requires Extract(a).Failure?
    ensures Extract(a + b) == Extract(a)
    decreases |b|
  {
    if b == [] {
      assert a + b == a;
    } else {
      var b' := b[..|b| - 1];
      assert (a + b)[..|a + b| - 1] == a + b';
      ExtractFailureSticks(a, b');
    }
  }

  /** The generated source, or the panic that stops the build. */
  function Generate(root: seq<Entry>): Result<string, BuildError> {
    var presets :- Extract(Trace(root));
    Success(Header + Blocks(presets) + Footer)
  }

  // ---------------------------------------------------------------------------
  // What the walk covers.
  // ---------------------------------------------------------------------------

  /** The number of files in a listing and, recursively, in its subdirectories. */
  function FileCount(entries: seq<Entry>): nat
    decreases entries
  {
    if entries == [] then 0
    else
      var last := entries[|entries| - 1];
      FileCount(entries[..|entries| - 1]) + (if last.File? then 1 else FileCount(last.children))
  }

  /** Every document in a listing and, recursively, in its subdirectories is accepted. */
  predicate AllWellFormed(entries: seq<Entry>)
    decreases entries
  {
    entries != [] ==>
      var last := entries[|entries| - 1];
      && AllWellFormed(entries[..|entries| - 1])
      && (if last.File? then WellFormed(last.document) else AllWellFormed(last.children))
  }

  /** The number of directories below a listing, at any depth. */
  function DirCount(entries: seq<Entry>): nat
    decreases entries
  {
    if entries == [] then 0
    else
      var last := entries[|entries| - 1];
      DirCount(entries[..|entries| - 1]) + (if last.Dir? then 1 + DirCount(last.children) else 0)
  }

  /** The number of `Visit` steps: the directories popped. */
  function VisitCount(steps: seq<Step>): nat {
    if steps == [] then 0
    else VisitCount(steps[..|steps| - 1]) + (if steps[|steps| - 1].Visit? then 1 else 0)
  }

  /** The number of `Emit` steps. */
  function EmitCount(steps: seq<Step>): nat {
    if steps == [] then 0
    else EmitCount(steps[..|steps| - 1]) + (if steps[|steps| - 1].Emit? then 1 else 0)
  }

  /** The `Emit` steps of a walk, as a multiset. */
  function Emits(steps: seq<Step>): multiset<Step> {
    if steps == [] then multiset{}
    else
      var last := steps[|steps| - 1];
      Emits(steps[..|steps| - 1]) + (if last.Emit? then multiset{last} else multiset{})
  }

  /** The names of the directories a walk pops, as a multiset. */
  function Visits(steps: seq<Step>): multiset<string> {
    if steps == [] then multiset{}
    else
      var last := steps[|steps| - 1];
      Visits(steps[..|steps| - 1]) + (if last.Visit? then multiset{last.dir} else multiset{})
  }

  /**
   * The block every file of a listing owes, at any depth: a file directly in
   * the listing belongs to `category`, a file deeper down to the directory
   * that holds it.
   */
  function TreeFiles(category: string, entries: seq<Entry>): multiset<Step>
    decreases entries
  {
    if entries == [] then multiset{}
    else
      var last := entries[|entries| - 1];
      TreeFiles(category, entries[..|entries| - 1])
      + (if last.File? then multiset{Emit(category, last.name, last.document)}
         else TreeFiles(last.name, last.children))
  }

  /** The names of the directories below a listing, at any depth. */
  function TreeDirs(entries: seq<Entry>): multiset<string>
    decreases entries
  {
    if entries == [] then multiset{}
    else
      var last := entries[|entries| - 1];
      TreeDirs(entries[..|entries| - 1])
      + (if last.Dir? then multiset{last.name} + TreeDirs(last.children) else multiset{})
  }

  /** Every `Emit` step carries an accepted document. */
  predicate Accepted(steps: seq<Step>) {
    steps != [] ==>
      && Accepted(steps[..|steps| - 1])
      && (steps[|steps| - 1].Emit? ==> WellFormed(steps[|steps| - 1].document))
  }

  /** A single step's count and acceptance. */
  lemma OneStep(step: Step)
    ensures EmitCount([step]) == (if step.Emit? then 1 else 0)
    ensures VisitCount([step]) == (if step.Visit? then 1 else 0)
    ensures Accepted([step]) == (step.Emit? ==> WellFormed(step.document))
  {
    assert [step][..0] == [];
  }

  /** Counting and acceptance distribute over concatenated walks. */
  lemma {:induction false} StepsAppend(a: seq<Step>, b: seq<Step>)
    ensures EmitCount(a + b) == EmitCount(a) + EmitCount(b)
    ensures VisitCount(a + b) == VisitCount(a) + VisitCount(b)
    ensures Accepted(a + b) == (Accepted(a) && Accepted(b))
    decreases |b|
  {
    if b == [] {
      assert a + b == a;
    } else {
      var b' := b[..|b| - 1];
      assert (a + b)[..|a + b| - 1] == a + b';
      StepsAppend(a, b');
    }
  }

  /** A single step's tallies. */
  lemma OneTally(step: Step)
    ensures Emits([step]) == (if step.Emit? then multiset{step} else multiset{})
    ensures Visits([step]) == (if step.Visit? then multiset{step.dir} else multiset{})
  {
    assert [step][..0] == [];
  }

  /** The tallies distribute over concatenated walks. */
  lemma {:induction false} TalliesAppend(a: seq<Step>, b: seq<Step>)
    ensures Emits(a + b) == Emits(a) + Emits(b)
    ensures Visits(a + b) == Visits(a) + Visits(b)
    decreases |b|
  {
    if b == [] {
      assert a + b == a;
    } else {
      var b' := b[..|b| - 1];
      assert (a + b)[..|a + b| - 1] == a + b';
      TalliesAppend(a, b');
    }
  }

  /**
   * Extraction succeeds exactly when every emitted document is accepted, and
   * then yields one preset per `Emit` step.
   */
  lemma {:induction false} ExtractAccepts(steps: seq<Step>)
    ensures Extract(steps).Success? <==> Accepted(steps)
    ensures Extract(steps).Success? ==> |Extract(steps).value| == EmitCount(steps)
  {
    if steps != [] {
      var last := steps[|steps| - 1];
      ExtractAccepts(steps[..|steps| - 1]);
      if last.Emit? {
        ExtractFieldsCorrect(last.file, last.document);
      }
    }
  }

  /**
   * The walk of a directory has one `Emit` step per file below it and one
   * `Visit` step for it and for each directory below it; which ones they are
   * is `DirTraceTallies`.
   */
  lemma {:induction false} DirTraceCovers(name: string, entries: seq<Entry>)
    ensures EmitCount(DirTrace(name, entries)) == FileCount(entries)
    ensures VisitCount(DirTrace(name, entries)) == 1 + DirCount(entries)
    ensures Accepted(DirTrace(name, entries)) == AllWellFormed(entries)
    decreases entries, 1
  {
    ListingCovers(name, entries);
    OneStep(Visit(name));
    StepsAppend([Visit(name)], LocalFiles(name, entries));
    StepsAppend([Visit(name)] + LocalFiles(name, entries), SubdirTraces(entries));
  }

  /** The files of a listing and the walks of its subdirectories together cover the listing. */
  lemma {:induction false} ListingCovers(name: string, entries: seq<Entry>)
    ensures EmitCount(LocalFiles(name, entries)) + EmitCount(SubdirTraces(entries)) == FileCount(entries)
    ensures VisitCount(LocalFiles(name, entries)) + VisitCount(SubdirTraces(entries)) == DirCount(entries)
    ensures (Accepted(LocalFiles(name, entries)) && Accepted(SubdirTraces(entries))) == AllWellFormed(entries)
    decreases entries, 0
  {
    if entries != [] {
      var init := entries[..|entries| - 1];
      var last := entries[|entries| - 1];
      ListingCovers(name, init);
      var file: seq<Step> := if last.File? then [Emit(name, last.name, last.document)] else [];
      var walk := if last.Dir? then DirTrace(last.name, last.children) else [];
      StepsAppend(LocalFiles(name, init), file);
      StepsAppend(walk, SubdirTraces(init));
      if last.Dir? {
        DirTraceCovers(last.name, last.children);
      } else {
        OneStep(Emit(name, last.name, last.document));
      }
    }
  }

  /**
   * The walk of a directory emits the block of each file below it exactly
   * once, under the directory that holds the file, and nothing else; it pops
   * the directory and each directory below it exactly once.
   */
  lemma {:induction false} DirTraceTallies(name: string, entries: seq<Entry>)
    ensures Emits(DirTrace(name, entries)) == TreeFiles(name, entries)
    ensures Visits(DirTrace(name, entries)) == multiset{name} + TreeDirs(entries)
    decreases entries, 1
  {
    var visit, files, walks := [Visit(name)], LocalFiles(name, entries), SubdirTraces(entries);
    ListingTallies(name, entries);
    OneTally(Visit(name));
    TalliesAppend(visit, files);
    TalliesAppend(visit + files, walks);
    calc {
      Emits(DirTrace(name, entries));
      Emits(visit + files) + Emits(walks);
      multiset{} + Emits(files) + Emits(walks);
      TreeFiles(name, entries);
    }
    calc {
      Visits(DirTrace(name, entries));
      Visits(visit + files) + Visits(walks);
      multiset{name} + (Visits(files) + Visits(walks));
      multiset{name} + TreeDirs(entries);
    }
  }

  /** The files of a listing and the walks of its subdirectories together tally the listing's tree. */
  lemma {:induction false} ListingTallies(name: string, entries: seq<Entry>)
    ensures Emits(LocalFiles(name, entries)) + Emits(SubdirTraces(entries)) == TreeFiles(name, entries)
    ensures Visits(LocalFiles(name, entries)) + Visits(SubdirTraces(entries)) == TreeDirs(entries)
    decreases entries, 0
  {
    if entries != [] {
      var init := entries[..|entries| - 1];
      var last := entries[|entries| - 1];
      ListingTallies(name, init);
      if last.Dir? {
        DirTraceTallies(last.name, last.children);
        DirEntryTallies(name, entries);
      } else {
        FileEntryTallies(name, entries);
      }
    }
  }

  /** The step of `ListingTallies` for a listing that ends with a directory. */
  lemma DirEntryTallies(name: string, entries: seq<Entry>)
    requires entries != [] && entries[|entries| - 1].Dir?
    requires Emits(LocalFiles(name, entries[..|entries| - 1])) + Emits(SubdirTraces(entries[..|entries| - 1]))
             == TreeFiles(name, entries[..|entries| - 1])
    requires Visits(LocalFiles(name, entries[..|entries| - 1])) + Visits(SubdirTraces(entries[..|entries| - 1]))
             == TreeDirs(entries[..|entries| - 1])
    requires Emits(DirTrace(entries[|entries| - 1].name, entries[|entries| - 1].children))
             == TreeFiles(entries[|entries| - 1].name, entries[|entries| - 1].children)
    requires Visits(DirTrace(entries[|entries| - 1].name, entries[|entries| - 1].children))
             == multiset{entries[|entries| - 1].name} + TreeDirs(entries[|entries| - 1].children)
    ensures Emits(LocalFiles(name, entries)) + Emits(SubdirTraces(entries)) == TreeFiles(name, entries)
    ensures Visits(LocalFiles(name, entries)) + Visits(SubdirTraces(entries)) == TreeDirs(entries)
  {
    var init := entries[..|entries| - 1];
    var last := entries[|entries| - 1];
    var walk := DirTrace(last.name, last.children);
    assert LocalFiles(name, entries) == LocalFiles(name, init) + [] == LocalFiles(name, init);
    assert SubdirTraces(entries) == walk + SubdirTraces(init);
    TalliesAppend(walk, SubdirTraces(init));
    Regroup(Emits(LocalFiles(name, init)), Emits(walk), Emits(SubdirTraces(init)));
    Regroup(Visits(LocalFiles(name, init)), Visits(walk), Visits(SubdirTraces(init)));
  }

  /** The step of `ListingTallies` for a listing that ends with a file. */
  lemma FileEntryTallies(name: string, entries: seq<Entry>)
    requires entries != [] && entries[|entries| - 1].File?
    requires Emits(LocalFiles(name, entries[..|entries| - 1])) + Emits(SubdirTraces(entries[..|entries| - 1]))
             == TreeFiles(name, entries[..|entries| - 1])
    requires Visits(LocalFiles(name, entries[..|entries| - 1])) + Visits(SubdirTraces(entries[..|entries| - 1]))
             == TreeDirs(entries[..|entries| - 1])
    ensures Emits(LocalFiles(name, entries)) + Emits(SubdirTraces(entries)) == TreeFiles(name, entries)
    ensures Visits(LocalFiles(name, entries)) + Visits(SubdirTraces(entries)) == TreeDirs(entries)
  {
    var init := entries[..|entries| - 1];
    var last := entries[|entries| - 1];
    var file := Emit(name, last.name, last.document);
    assert LocalFiles(name, entries) == LocalFiles(name, init) + [file];
    assert SubdirTraces(entries) == [] + SubdirTraces(init) == SubdirTraces(init);
    TalliesAppend(LocalFiles(name, init), [file]);
    OneTally(file);
    Regroup(Emits(LocalFiles(name, init)), multiset{file}, Emits(SubdirTraces(init)));
    Regroup(Visits(LocalFiles(name, init)), multiset{}, Visits(SubdirTraces(init)));
  }

  /** Moving the middle part of a union to the end. */
  lemma Regroup<T>(a: multiset<T>, b: multiset<T>, c: multiset<T>)
    ensures (a + b) + c == (a + c) + b
    ensures a + (b + c) == (a + c) + b
  {
  }

  /**
   * The build succeeds exactly when every file under the presets directory is
   * accepted, and then the generated map has one block per file. The walk
   * emits every file of the tree exactly once, and pops the root and every
   * directory below it exactly once.
   */
  lemma BuildSucceedsIffAllAccepted(root: seq<Entry>)
    ensures Generate(root).Success? <==> AllWellFormed(root)
    ensures Generate(root).Success? ==> |Extract(Trace(root)).value| == FileCount(root)
    ensures VisitCount(Trace(root)) == 1 + DirCount(root)
    ensures Emits(Trace(root)) == TreeFiles(PresetsPath, root)
    ensures Visits(Trace(root)) == multiset{PresetsPath} + TreeDirs(root)
  {
    DirTraceCovers(PresetsPath, root);
    DirTraceTallies(PresetsPath, root);
    ExtractAccepts(Trace(root));
  }

  // Small sequence facts the walk's proof uses.

  lemma Assoc<T>(a: seq<T>, b: seq<T>, c: seq<T>)
    ensures a + (b + c) == (a + b) + c
  {
  }

  lemma SplitLast<T>(s: seq<T>)
    requires |s| > 0
    ensures s == s[..|s| - 1] + [s[|s| - 1]]
  {
  }

  /** A popped directory adds no preset. */
  lemma VisitAddsNothing(trace: seq<Step>, name: string)
    ensures Extract(trace + [Visit(name)]) == Extract(trace)
  {
    assert (trace + [Visit(name)])[..|trace|] == trace;
  }

  /** A file whose fields are extracted adds its preset. */
  lemma EmitAddsPreset(trace: seq<Step>, presets: seq<Preset>, step: Step, fields: PresetFields)
    requires Extract(trace) == Success(presets)
    requires step.Emit? && ExtractFields(step.file, step.document) == Success(fields)
    ensures Extract(trace + [step]) == Success(presets + [Preset(step.category, fields)])
  {
    assert (trace + [step])[..|trace|] == trace;
  }

  /** A file whose fields cannot be extracted fails the build. */
  lemma EmitFails(trace: seq<Step>, presets: seq<Preset>, step: Step)
    requires Extract(trace) == Success(presets)
    requires step.Emit? && ExtractFields(step.file, step.document).Failure?
    ensures Extract(trace + [step]) == Failure(ExtractFields(step.file, step.document).error)
  {
    assert (trace + [step])[..|trace|] == trace;
  }

  /** Emitting one more preset appends its block. */
  lemma BlocksAppend(presets: seq<Preset>, p: Preset)
    ensures Blocks(presets + [p]) == Blocks(presets) + RenderBlock(p)
  {
    var all := presets + [p];
    assert all[..|all| - 1] == presets;
    assert all[|all| - 1] == p;
  }

  /** Popping a directory owes its walk before the rest of the stack. */
  lemma PopDir(stack: seq<Entry>, dir: Entry)
    requires dir.Dir?
    ensures StackTrace(stack + [dir]) ==
              [Visit(dir.name)] + (LocalFiles(dir.name, dir.children) + (SubdirTraces(dir.children) + StackTrace(stack)))
  {
    assert (stack + [dir])[..|stack|] == stack;
  }

  /**
   * `generate_presets`: pops a directory off the stack, emits a block for each
   * of its files and pushes each of its subdirectories, until the stack is
   * empty; then closes the function. `trace` records the pops and emissions.
   */
  method GeneratePresets(root: seq<Entry>) returns (result: Result<string, BuildError>, ghost trace: seq<Step>)
    ensures result == Generate(root)
    ensures result.Success? ==> trace == Trace(root)
    ensures result.Failure? ==> exists rest :: trace + rest == Trace(root)
  {
    var generated := Header;
    var stack := [Dir(PresetsPath, root)];
    ghost var presets: seq<Preset> := [];
    trace := [];
    assert StackTrace(stack) == Trace(root) by {
      assert stack[..0] == [];
    }
    while |stack| > 0
      invariant forall i :: 0 <= i < |stack| ==> stack[i].Dir?
      invariant trace + StackTrace(stack) == Trace(root)
      invariant Extract(trace) == Success(presets)
      invariant generated == Header + Blocks(presets)
      decreases |Trace(root)| - |trace|
    {
      var error;
      ghost var rest;
      error, stack, generated, presets, trace, rest := PopDirectory(stack, generated, presets, trace);
      if error.Some? {
        ExtractFailureSticks(trace, rest);
        result := Failure(error.value);
        return;
      }
    }
    assert trace == Trace(root);
    generated := generated + Footer;
    result := Success(generated);
  }

  /**
   * One pass of the outer loop of `generate_presets`: pops the top directory
   * and scans its listing. On success the walk still owed is unchanged and at
   * least the pop was recorded; on failure the trace is a prefix of that walk.
   */
  method PopDirectory(stack0: seq<Entry>, generated0: string, ghost presets0: seq<Preset>, ghost trace0: seq<Step>)
    returns (error: Option<BuildError>, stack: seq<Entry>, generated: string, ghost presets: seq<Preset>, ghost trace: seq<Step>,
             ghost rest: seq<Step>)
    requires |stack0| > 0 && forall i :: 0 <= i < |stack0| ==> stack0[i].Dir?
    requires Extract(trace0) == Success(presets0)
    requires generated0 == Header + Blocks(presets0)
    ensures error.None? ==> forall i :: 0 <= i < |stack| ==> stack[i].Dir?
    ensures error.None? ==> trace + StackTrace(stack) == trace0 + StackTrace(stack0) && |trace| > |trace0|
    ensures error.None? ==> Extract(trace) == Success(presets) && generated == Header + Blocks(presets)
    ensures error.Some? ==> Extract(trace) == Failure(error.value)
    ensures error.Some? ==> trace + rest == trace0 + StackTrace(stack0)
  {
    var dir := stack0[|stack0| - 1];
    var base := stack0[..|stack0| - 1];
    ghost var owed := SubdirTraces(dir.children) + StackTrace(base);
    ghost var before := trace0 + [Visit(dir.name)];
    PopOwed(trace0, stack0);
    VisitAddsNothing(trace0, dir.name);
    ghost var unscanned;
    error, stack, generated, presets, trace, unscanned := ScanListing(dir, base, generated0, presets0, before);
    if error.Some? {
      PrefixExtends(trace, unscanned, before, LocalFiles(dir.name, dir.children), owed);
      rest := unscanned + owed;
      return;
    }
    rest := [];
    ListingCompletes(before, LocalFiles(dir.name, dir.children), base, dir.children);
  }

  /** The walk owed to a stack, split at the pop of its top directory. */
  lemma PopOwed(trace0: seq<Step>, stack0: seq<Entry>)
    requires |stack0| > 0 && stack0[|stack0| - 1].Dir?
    ensures var dir := stack0[|stack0| - 1];
      trace0 + StackTrace(stack0) ==
        (trace0 + [Visit(dir.name)])
        + (LocalFiles(dir.name, dir.children) + (SubdirTraces(dir.children) + StackTrace(stack0[..|stack0| - 1])))
  {
    var dir := stack0[|stack0| - 1];
    var base := stack0[..|stack0| - 1];
    SplitLast(stack0);
    PopDir(base, dir);
    Assoc(trace0, [Visit(dir.name)], LocalFiles(dir.name, dir.children) + (SubdirTraces(dir.children) + StackTrace(base)));
  }

  /** A scanned listing's files and pushed subdirectories account for the rest of the owed walk. */
  lemma ListingCompletes(before: seq<Step>, files: seq<Step>, base: seq<Entry>, entries: seq<Entry>)
    ensures (before + files) + StackTrace(base + Subdirs(entries)) ==
              before + (files + (SubdirTraces(entries) + StackTrace(base)))
  {
    PushSubdirs(base, entries);
    Assoc(before, files, SubdirTraces(entries) + StackTrace(base));
  }

  /** A prefix of a walk stays a prefix when more is owed after it. */
  lemma PrefixExtends(trace: seq<Step>, rest: seq<Step>, before: seq<Step>, files: seq<Step>, owed: seq<Step>)
    requires trace + rest == before + files
    ensures trace + (rest + owed) == before + (files + owed)
  {
    Assoc(trace, rest, owed);
    Assoc(before, files, owed);
  }

  /**
   * The inner loop of `generate_presets` over the listing of the popped
   * directory `dir`: in listing order, pushes each subdirectory and appends
   * the block of each file, and stops at the first file whose fields cannot
   * be extracted, with that file's error.
   */
  method ScanListing(dir: Entry, stack0: seq<Entry>, generated0: string, ghost presets0: seq<Preset>, ghost trace0: seq<Step>)
    returns (error: Option<BuildError>, stack: seq<Entry>, generated: string, ghost presets: seq<Preset>, ghost trace: seq<Step>,
             ghost rest: seq<Step>)
    requires dir.Dir?
    requires Extract(trace0) == Success(presets0)
    requires generated0 == Header + Blocks(presets0)
    ensures error.None? ==> stack == stack0 + Subdirs(dir.children)
    ensures error.None? ==> trace == trace0 + LocalFiles(dir.name, dir.children)
    ensures error.None? ==> Extract(trace) == Success(presets) && generated == Header + Blocks(presets)
    ensures error.Some? ==> Extract(trace) == Failure(error.value)
    ensures error.Some? ==> trace + rest == trace0 + LocalFiles(dir.name, dir.children)
  {
    stack, generated, presets, trace := stack0, generated0, presets0, trace0;
    rest := [];
    assert dir.children[..0] == [];
    assert stack == stack0 + [];
    assert trace == trace0 + [];
    for i := 0 to |dir.children|
      invariant stack == stack0 + Subdirs(dir.children[..i])
      invariant trace == trace0 + LocalFiles(dir.name, dir.children[..i])
      invariant Extract(trace) == Success(presets)
      invariant generated == Header + Blocks(presets)
    {
      ghost var done := LocalFiles(dir.name, dir.children[..i]);
      ghost var pushed := Subdirs(dir.children[..i]);
      ghost var trace1 := trace;
      GrowPrefix(dir.name, dir.children, i);
      error, stack, generated, presets, trace := ScanEntry(dir.name, dir.children[i], stack, generated, presets, trace);
      if error.Some? {
        ghost var later := LocalFiles(dir.name, dir.children[i + 1..]);
        LocalFilesSplit(dir.name, dir.children, i);
        calc {
          trace0 + LocalFiles(dir.name, dir.children);
          trace0 + (done + [Emit(dir.name, dir.children[i].name, dir.children[i].document)] + later);
          { Assoc(trace0, done + [Emit(dir.name, dir.children[i].name, dir.children[i].document)], later); }
          (trace0 + (done + [Emit(dir.name, dir.children[i].name, dir.children[i].document)])) + later;
          { Assoc(trace0, done, [Emit(dir.name, dir.children[i].name, dir.children[i].document)]); }
          trace + later;
        }
        rest := later;
        return;
      }
      Assoc(stack0, pushed, if dir.children[i].Dir? then [dir.children[i]] else []);
      Assoc(trace0, done, if dir.children[i].File? then [Emit(dir.name, dir.children[i].name, dir.children[i].document)] else []);
    }
    assert dir.children[..|dir.children|] == dir.children;
    error := None;
  }

  /**
   * One entry of a listing: a directory is pushed; a file's fields are
   * extracted and its block appended, or its error stops the walk.
   */
  method ScanEntry(category: string, entry: Entry, stack0: seq<Entry>, generated0: string, ghost presets0: seq<Preset>, ghost trace0: seq<Step>)
    returns (error: Option<BuildError>, stack: seq<Entry>, generated: string, ghost presets: seq<Preset>, ghost trace: seq<Step>)
    requires Extract(trace0) == Success(presets0)
    requires generated0 == Header + Blocks(presets0)
    ensures error.Some? ==> entry.File? && trace == trace0 + [Emit(category, entry.name, entry.document)]
    ensures error.Some? ==> Extract(trace) == Failure(error.value)
    ensures error.None? ==> stack == stack0 + (if entry.Dir? then [entry] else [])
    ensures error.None? ==> trace == trace0 + (if entry.File? then [Emit(category, entry.name, entry.document)] else [])
    ensures error.None? ==> Extract(trace) == Success(presets) && generated == Header + Blocks(presets)
  {
    stack, generated, presets, trace := stack0, generated0, presets0, trace0;
    error := None;
    if entry.Dir? {
      stack := stack + [entry];
      return;
    }
    var fields := ExtractFields(entry.name, entry.document);
    ghost var step := Emit(category, entry.name, entry.document);
    if fields.Failure? {
      EmitFails(trace, presets, step);
      trace := trace + [step];
      error := Some(fields.error);
      return;
    }
    var preset := Preset(category, fields.value);
    EmitAddsPreset(trace, presets, step, fields.value);
    generated := AppendBlock(generated, presets, preset);
    presets := presets + [preset];
    trace := trace + [step];
  }

  /** Appends the block of `preset` to the text generated so far. */
  method AppendBlock(generated: string, ghost presets: seq<Preset>, preset: Preset) returns (text: string)
    requires generated == Header + Blocks(presets)
    ensures text == Header + Blocks(presets + [preset])
  {
    BlocksAppend(presets, preset);
    Assoc(Header, Blocks(presets), RenderBlock(preset));
    text := generated + RenderBlock(preset);
  }

  /** One more entry of a listing adds its step, or its directory, at the end. */
  lemma GrowPrefix(category: string, entries: seq<Entry>, i: nat)
    requires i < |entries|
    ensures var e := entries[i];
      && LocalFiles(category, entries[..i + 1]) ==
           LocalFiles(category, entries[..i]) + (if e.File? then [Emit(category, e.name, e.document)] else [])
      && Subdirs(entries[..i + 1]) == Subdirs(entries[..i]) + (if e.Dir? then [e] else [])
  {
    assert entries[..i + 1][..i] == entries[..i];
  }

  /** The file steps of a listing, split around its `i`-th entry. */
  lemma {:induction false} LocalFilesSplit(category: string, entries: seq<Entry>, i: nat)
    requires i < |entries| && entries[i].File?
    ensures LocalFiles(category, entries) ==
              LocalFiles(category, entries[..i]) + [Emit(category, entries[i].name, entries[i].document)]
              + LocalFiles(category, entries[i + 1..])
  {
    LocalFilesAppend(category, entries[..i + 1], entries[i + 1..]);
    assert entries[..i + 1] + entries[i + 1..] == entries;
    assert entries[..i + 1][..i] == entries[..i];
  }

  /** The file steps of two listings read one after the other. */
  lemma {:induction false} LocalFilesAppend(category: string, a: seq<Entry>, b: seq<Entry>)
    ensures LocalFiles(category, a + b) == LocalFiles(category, a) + LocalFiles(category, b)
    decreases |b|
  {
    if b == [] {
      assert a + b == a;
    } else {
      var b' := b[..|b| - 1];
      assert (a + b)[..|a + b| - 1] == a + b';
      LocalFilesAppend(category, a, b');
    }
  }
}
