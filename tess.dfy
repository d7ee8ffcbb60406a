/** Reorganising the Toronto Emotional Speech Set into RAVDESS-named files under the two
    actor folders, and the quick check of a TESS directory (src/ser/datasets/tess.py). */
module Tess {
  import opened Wrappers
  import opened Text
  import opened Paths
  import opened Seqs
  import Config
  import Features

  /** The TESS emotion words and the labels they stand for; "ps" is pleasant surprise. */
  const TESS_EMOTION_MAP: map<string, string> := map[
    "angry" := "angry", "disgust" := "disgust", "fear" := "fear", "happy" := "happy",
    "neutral" := "neutral", "ps" := "surprised", "sad" := "sad"]

  /** The keys of TESS_EMOTION_MAP in the dictionary's order. */
  const TESS_KEYS: seq<string> := ["angry", "disgust", "fear", "happy", "neutral", "ps", "sad"]

  lemma TessKeysAreMapKeys()
    ensures forall k :: k in TESS_EMOTION_MAP <==> k in TESS_KEYS
  {
  }

  /** The RAVDESS emotion codes by label. */
  const EMOTION_CODES: map<string, nat> := map[
    "neutral" := 1, "calm" := 2, "happy" := 3, "sad" := 4,
    "angry" := 5, "fear" := 6, "disgust" := 7, "surprised" := 8]

  /** `get_emotion_code(emotion)`: the RAVDESS code of a label, 1 for any other string. */
  function GetEmotionCode(emotion: string): (code: nat)
    ensures 1 <= code <= 8
    ensures emotion in Config.EMOTIONS ==> Config.EMOTIONS[code - 1] == emotion
    ensures emotion !in Config.EMOTIONS ==> code == 1
  {
    if emotion in EMOTION_CODES then EMOTION_CODES[emotion] else 1
  }

  /** The codes follow the configured label order: label i has code i + 1. */
  lemma EmotionCodesFollowConfig()
    ensures forall i :: 0 <= i < |Config.EMOTIONS| ==> GetEmotionCode(Config.EMOTIONS[i]) == i + 1
  {
    Config.EmotionsDistinct();
  }

  /** Every TESS emotion is one of the configured labels. */
  lemma TessEmotionsAreLabels()
    ensures forall k :: k in TESS_EMOTION_MAP ==> TESS_EMOTION_MAP[k] in Config.EMOTIONS
  {
  }

  /** The RAVDESS-style name `02-01-<code>-01-01-01-<actor as two digits>.wav`: a final
      path component whose stem is the generated stem. */
  function RavdessName(code: nat, actor: nat): (name: string)
    ensures '/' !in name
    ensures StemOfName(name) == RavdessStem(code, actor)
  {
    var stem := RavdessStem(code, actor);
    StemOfWavName(stem);
    stem + ".wav"
  }

  /** The stem of the generated name: it starts with the modality and channel fields and
      holds neither a directory separator nor a suffix dot. */
  function RavdessStem(code: nat, actor: nat): (stem: string)
    ensures StartsWith(stem, "02-01-")
    ensures '/' !in stem && '.' !in stem
  {
    var c := NatToString(code);
    var a := Pad2(actor);
    DigitsHaveNoSeparators(c);
    DigitsHaveNoSeparators(a);
    var stem := "02-01-" + c + "-01-01-01-" + a;
    assert stem[..6] == "02-01-";
    stem
  }

  /** What happens to one TESS file; the three skips all count as skipped. */
  datatype Skip = UnexpectedFormat | UnknownEmotion(part: string) | CopyFailed(message: string)

  /** Where a file with a well-formed name goes. */
  datatype Placement = Placement(emotion: string, actor: nat, target: Path)

  const ACTOR_25_DIR: Path := Paths.Join(Config.FEATURES_DIR, "Actor_25")
  const ACTOR_26_DIR: Path := Paths.Join(Config.FEATURES_DIR, "Actor_26")

  /** The parse and rewrite of one stem: at least three `_`-separated parts, the last one
      lowercased must be a TESS emotion, speaker 25 when the stem mentions "YAF" and 26
      otherwise, and the target folder of that speaker. */
  function PlaceFile(stem: string): (r: Result<Placement, Skip>)
    ensures |Split(stem, '_')| < 3 <==> r == Err(UnexpectedFormat)
    ensures r.Err? && |Split(stem, '_')| >= 3 ==>
      r == Err(UnknownEmotion(Lower(Last(Split(stem, '_'))))) &&
      Lower(Last(Split(stem, '_'))) !in TESS_EMOTION_MAP
    ensures r.Ok? ==>
      && Lower(Last(Split(stem, '_'))) in TESS_EMOTION_MAP
      && r.value.emotion == TESS_EMOTION_MAP[Lower(Last(Split(stem, '_')))]
      && (r.value.actor == 25 <==> Contains(stem, "YAF"))
      && (r.value.actor == 25 || r.value.actor == 26)
      && r.value.target == Target(r.value.emotion, r.value.actor)
  {
    var parts := Split(stem, '_');
    if |parts| < 3 then Err(UnexpectedFormat)
    else
      var part := Lower(Last(parts));
      if part !in TESS_EMOTION_MAP then Err(UnknownEmotion(part))
      else
        var emotion := TESS_EMOTION_MAP[part];
        var actor := if Contains(stem, "YAF") then 25 else 26;
        Ok(Placement(emotion, actor, Target(emotion, actor)))
  }

  /** The folder of a speaker: 25 and everything else, which the source only ever sets
      to 26. */
  function ActorDir(actor: nat): Path {
    if actor == 25 then ACTOR_25_DIR else ACTOR_26_DIR
  }

  /** Where a recording of `emotion` by speaker `actor` is copied: the speaker's folder
      and the generated RAVDESS name. */
  function Target(emotion: string, actor: nat): Path {
    Paths.Join(ActorDir(actor), RavdessName(GetEmotionCode(emotion), actor))
  }

  function Last(parts: seq<string>): string
    requires |parts| > 0
  {
    parts[|parts| - 1]
  }

  /** One iteration of the loop: place the file, then `shutil.copy2` it; the target path
      when it was copied. */
  function CopyStep(file: Path, copy: (Path, Path) -> Outcome<string>): (r: Result<Path, Skip>)
    ensures r.Ok? ==> PlaceFile(Stem(file)).Ok? && r.value == PlaceFile(Stem(file)).value.target
    ensures r.Ok? <==> PlaceFile(Stem(file)).Ok? && copy(file, PlaceFile(Stem(file)).value.target).Pass?
  {
    match PlaceFile(Stem(file))
    case Err(skip) => Err(skip)
    case Ok(placement) =>
      match copy(file, placement.target)
      case Fail(e) => Err(CopyFailed(e))
      case Pass => Ok(placement.target)
  }

  function Step(copy: (Path, Path) -> Outcome<string>): Path -> Result<Path, Skip>
  {
    file => CopyStep(file, copy)
  }

  /** How a run that got past the source check ends. */
  datatype TessRun =
    | NoAudioFiles
    | Completed(processed: nat, skipped: nat, copies: seq<Path>)

  /** The file system once the feature folders and both actor folders exist. */
  function Prepared(fs: FileSystem): FileSystem {
    MakeDirs(Config.EnsureDirsExist(fs), {ACTOR_25_DIR, ACTOR_26_DIR})
  }

  /** `process_tess_dataset(source_dir)`: every `.wav` file under the source directory
      is either copied under its RAVDESS name (processed) or skipped, never both; the
      copies appear in the file system and nothing else changes. */
  method ProcessTessDataset(
    fs: FileSystem, copy: (Path, Path) -> Outcome<string>, sourceDir: Option<Path>)
    returns (r: Result<TessRun, Error>, fs': FileSystem)
    ensures var dir := sourceDir.GetOr(Config.TESS_ORIGINAL_DIR);
      && (!Exists(fs, dir) <==> r.Err?)
      && (r.Err? ==> r.error.FileNotFound? && fs' == fs)
      && (r == Ok(NoAudioFiles) <==> Exists(fs, dir) && RGlob(Prepared(fs), dir) == [])
      && (r == Ok(NoAudioFiles) ==> fs' == Prepared(fs))
    ensures r.Ok? && r.value.Completed? ==>
      var files := RGlob(Prepared(fs), sourceDir.GetOr(Config.TESS_ORIGINAL_DIR));
      && r.value.processed + r.value.skipped == |files|
      && r.value.copies == Successes(files, Step(copy))
      && r.value.processed == |r.value.copies|
      && r.value.skipped == FailureCount(files, Step(copy))
      && (forall p :: Exists(fs', p) <==> Exists(Prepared(fs), p) || p in r.value.copies)
      && fs'.directories == Prepared(fs).directories
  {
    var dir := sourceDir.GetOr(Config.TESS_ORIGINAL_DIR);
    if !Exists(fs, dir) {
      return Err(FileNotFound("TESS dataset not found at " + dir)), fs;
    }
    var ready := Prepared(fs);
    var files := RGlob(ready, dir);
    if |files| == 0 {
      return Ok(NoAudioFiles), ready;
    }
    var processed, skipped, copies, after := CopyAll(ready, files, Step(copy));
    SuccessesPlusFailures(files, Step(copy));
    return Ok(Completed(processed, skipped, copies)), after;
  }

  /** The loop of `process_tess_dataset`, with `step` the work on one file: the two
      counters and the file system as each copy lands. */
  method CopyAll(fs: FileSystem, files: seq<Path>, step: Path -> Result<Path, Skip>)
    returns (processed: nat, skipped: nat, copies: seq<Path>, fs': FileSystem)
    ensures copies == Successes(files, step) && processed == |copies|
    ensures skipped == FailureCount(files, step)
    ensures forall p :: Exists(fs', p) <==> Exists(fs, p) || p in copies
    ensures fs'.directories == fs.directories
  {
    processed, skipped, copies, fs' := 0, 0, [], fs;
    var i := 0;
    while i < |files|
      invariant 0 <= i <= |files|
      invariant copies == Successes(files[..i], step) && processed == |copies|
      invariant skipped == FailureCount(files[..i], step)
      invariant forall p :: Exists(fs', p) <==> Exists(fs, p) || p in copies
      invariant fs'.directories == fs.directories
    {
      SuccessesAppend(files[..i], [files[i]], step);
      FailureCountAppend(files[..i], [files[i]], step);
      assert files[..i + 1] == files[..i] + [files[i]];
      match step(files[i]) {
        case Ok(target) =>
          fs' := CreateFiles(fs', {target});
          copies := copies + [target];
          processed := processed + 1;
        case Err(_) =>
          skipped := skipped + 1;
      }
      i := i + 1;
    }
    assert files[..i] == files;
  }

  /** The stem looks like a TESS name: it contains `_` and one of the TESS emotion words
      occurs in its lowercase form. */
  predicate LooksLikeTess(stem: string) {
    '_' in stem && AnyOccurs(Lower(stem), TESS_KEYS)
  }

  /** `any(k in s for k in keys)`. */
  predicate AnyOccurs(s: string, keys: seq<string>)
    ensures AnyOccurs(s, keys) <==> exists k :: 0 <= k < |keys| && Contains(s, keys[k])
  {
    if keys == [] then false
    else
      assert forall k :: 1 <= k < |keys| ==> keys[k] == keys[1..][k - 1];
      Contains(s, keys[0]) || AnyOccurs(s, keys[1..])
  }

  /** The test the structure check applies to each file. */
  predicate TessLike(file: Path) {
    LooksLikeTess(Stem(file))
  }

  /** The dictionary `validate_tess_structure` returns. */
  datatype TessValidation = TessValidation(
    directoryExists: bool, hasAudioFiles: bool, hasExpectedStructure: bool)

  /** `validate_tess_structure(source_dir)`: whether the directory exists, holds `.wav`
      files somewhere below it, and holds at least one whose name looks like TESS. */
  method ValidateTessStructure(fs: FileSystem, sourceDir: Option<Path>) returns (v: TessValidation)
    ensures var dir := sourceDir.GetOr(Config.TESS_ORIGINAL_DIR);
      && v.directoryExists == Exists(fs, dir)
      && (!v.directoryExists ==> !v.hasAudioFiles && !v.hasExpectedStructure)
      && (v.directoryExists ==> (v.hasAudioFiles <==> |RGlob(fs, dir)| > 0))
      && (v.hasExpectedStructure <==>
            v.directoryExists &&
            exists j :: 0 <= j < |RGlob(fs, dir)| && LooksLikeTess(Stem(RGlob(fs, dir)[j])))
  {
    var dir := sourceDir.GetOr(Config.TESS_ORIGINAL_DIR);
    v := TessValidation(Exists(fs, dir), false, false);
    if !v.directoryExists {
      return v;
    }
    var files := RGlob(fs, dir);
    v := v.(hasAudioFiles := |files| > 0);
    if |files| > 0 {
      var validFiles := CountValid(files, TessLike);
      CountIfPositive(files, TessLike);
      v := v.(hasExpectedStructure := validFiles > 0);
    }
  }

  /** The counting loop of `validate_tess_structure`, with `looksLike` the test of one
      file. */
  method CountValid(files: seq<Path>, looksLike: Path -> bool) returns (validFiles: nat)
    ensures validFiles == CountIf(files, looksLike)
  {
    validFiles := 0;
    var i := 0;
    while i < |files|
      invariant 0 <= i <= |files|
      invariant validFiles == CountIf(files[..i], looksLike)
    {
      CountIfAppend(files[..i], [files[i]], looksLike);
      assert files[..i + 1] == files[..i] + [files[i]];
      if looksLike(files[i]) {
        validFiles := validFiles + 1;
      }
      i := i + 1;
    }
    assert files[..i] == files;
  }

  /** Seven fields free of `-`, joined by `-`, split back into the same seven. */
  lemma SevenFields(f: seq<string>)
    requires |f| == 7 && forall i :: 0 <= i < 7 ==> '-' !in f[i]
    ensures Split(f[0] + "-" + f[1] + "-" + f[2] + "-" + f[3] + "-" + f[4] + "-" + f[5] + "-" + f[6], '-') == f
  {
    SplitWithoutSep(f[0], '-');
    SplitAtLastSep(f[0], '-', f[1]);
    SplitAtLastSep(f[0] + "-" + f[1], '-', f[2]);
    SplitAtLastSep(f[0] + "-" + f[1] + "-" + f[2], '-', f[3]);
    SplitAtLastSep(f[0] + "-" + f[1] + "-" + f[2] + "-" + f[3], '-', f[4]);
    SplitAtLastSep(f[0] + "-" + f[1] + "-" + f[2] + "-" + f[3] + "-" + f[4], '-', f[5]);
    SplitAtLastSep(f[0] + "-" + f[1] + "-" + f[2] + "-" + f[3] + "-" + f[4] + "-" + f[5], '-', f[6]);
    assert [f[0]] + [f[1]] + [f[2]] + [f[3]] + [f[4]] + [f[5]] + [f[6]] == f;
  }

  /** The generated name is the seven `-`-separated fields `02 01 <code> 01 01 01
      <speaker>`, then `.wav`. */
  lemma RavdessFields(code: nat, actor: nat)
    ensures Split(RavdessStem(code, actor), '-') ==
      ["02", "01", NatToString(code), "01", "01", "01", Pad2(actor)]
  {
    var c := NatToString(code);
    var a := Pad2(actor);
    var f := ["02", "01", c, "01", "01", "01", a];
    DigitsHaveNoSeparators(c);
    DigitsHaveNoSeparators(a);
    var head := f[0] + "-" + f[1] + "-";
    assert head == "02-01-";
    var tail := "-" + f[3] + "-" + f[4] + "-" + f[5] + "-";
    assert tail == "-01-01-01-";
    assert RavdessStem(code, actor) == head + f[2] + tail + f[6];
    assert head + f[2] + tail + f[6] ==
      f[0] + "-" + f[1] + "-" + f[2] + "-" + f[3] + "-" + f[4] + "-" + f[5] + "-" + f[6];
    SevenFields(f);
  }

  /** Digits contain no separator. */
  lemma DigitsHaveNoSeparators(s: string)
    requires forall i :: 0 <= i < |s| ==> IsDigit(s[i])
    ensures '-' !in s && '/' !in s && '.' !in s
  {
  }

  /** The feature module reads the emotion code back from a generated name: code c in
      1..8 gives the c-th configured label. */
  lemma LabelOfRavdessStem(code: nat, actor: nat)
    requires 1 <= code <= 8
    ensures Features.LabelFromStem(RavdessStem(code, actor)) == Ok(Config.EMOTIONS[code - 1])
  {
    RavdessFields(code, actor);
    LabelOfCodeField(RavdessStem(code, actor), code);
  }

  /** A stem whose third `-`-separated field is `str(code)` is labelled by that code. */
  lemma LabelOfCodeField(stem: string, code: nat)
    requires 1 <= code <= 8
    requires |Split(stem, '-')| >= 3 && Split(stem, '-')[2] == NatToString(code)
    ensures Features.LabelFromStem(stem) == Ok(Config.EMOTIONS[code - 1])
  {
    ParseIntOfNatToString(code);
  }

  /** The stem of a copied file is its generated name without `.wav`. */
  lemma StemOfTarget(code: nat, actor: nat, dir: Path)
    ensures Stem(Paths.Join(dir, RavdessName(code, actor))) == RavdessStem(code, actor)
  {
    NameOfJoin(dir, RavdessName(code, actor));
  }

  /** The cross-file round trip: a TESS file copied under its RAVDESS name is labelled
      by the feature extraction with the emotion its TESS name carries. */
  lemma RenamedFileKeepsEmotion(stem: string)
    requires PlaceFile(stem).Ok?
    ensures Features.LabelFromStem(Stem(PlaceFile(stem).value.target)) ==
      Ok(PlaceFile(stem).value.emotion)
  {
    var p := PlaceFile(stem).value;
    var code := GetEmotionCode(p.emotion);
    StemOfTarget(code, p.actor, ActorDir(p.actor));
    TessEmotionsAreLabels();
    assert p.emotion in Config.EMOTIONS;
    LabelOfRavdessStem(code, p.actor);
  }

  /** The generated stem with the repetition field carrying a running number, so that
      each recording gets a name of its own. */
  function NumberedStem(code: nat, repetition: nat, actor: nat): (stem: string)
    ensures StartsWith(stem, "02-01-")
    ensures '/' !in stem && '.' !in stem
  {
    var c := NatToString(code);
    var n := Pad2(repetition);
    var a := Pad2(actor);
    DigitsHaveNoSeparators(c);
    DigitsHaveNoSeparators(n);
    DigitsHaveNoSeparators(a);
    var stem := "02-01-" + c + "-01-01-" + n + "-" + a;
    assert stem[..6] == "02-01-";
    stem
  }

  function NumberedName(code: nat, repetition: nat, actor: nat): (name: string)
    ensures '/' !in name
    ensures StemOfName(name) == NumberedStem(code, repetition, actor)
  {
    var stem := NumberedStem(code, repetition, actor);
    StemOfWavName(stem);
    stem + ".wav"
  }

  lemma NumberedFields(code: nat, repetition: nat, actor: nat)
    ensures Split(NumberedStem(code, repetition, actor), '-') ==
      ["02", "01", NatToString(code), "01", "01", Pad2(repetition), Pad2(actor)]
  {
    var c := NatToString(code);
    var n := Pad2(repetition);
    var a := Pad2(actor);
    var f := ["02", "01", c, "01", "01", n, a];
    DigitsHaveNoSeparators(c);
    DigitsHaveNoSeparators(n);
    DigitsHaveNoSeparators(a);
    var head := f[0] + "-" + f[1] + "-";
    assert head == "02-01-";
    var mid := "-" + f[3] + "-" + f[4] + "-";
    assert mid == "-01-01-";
    assert NumberedStem(code, repetition, actor) == head + f[2] + mid + f[5] + "-" + f[6];
    assert head + f[2] + mid + f[5] + "-" + f[6] ==
      f[0] + "-" + f[1] + "-" + f[2] + "-" + f[3] + "-" + f[4] + "-" + f[5] + "-" + f[6];
    SevenFields(f);
  }

  /** The placement with a name of its own for the file at `position` of the listing:
      the same skips, emotion and speaker as `PlaceFile`, and the position plus one in
      the repetition field. */
  function PlaceFileNumbered(stem: string, position: nat): (r: Result<Placement, Skip>)
    ensures r.Err? <==> PlaceFile(stem).Err?
    ensures r.Err? ==> r == PlaceFile(stem)
    ensures r.Ok? ==>
      && r.value.emotion == PlaceFile(stem).value.emotion
      && r.value.actor == PlaceFile(stem).value.actor
      && r.value.target == NumberedTarget(r.value.emotion, r.value.actor, position + 1)
  {
    match PlaceFile(stem)
    case Err(skip) => Err(skip)
    case Ok(p) => Ok(p.(target := NumberedTarget(p.emotion, p.actor, position + 1)))
  }

  /** Where the recording numbered `repetition` of `emotion` by `actor` is copied. */
  function NumberedTarget(emotion: string, actor: nat, repetition: nat): Path {
    Paths.Join(ActorDir(actor), NumberedName(GetEmotionCode(emotion), repetition, actor))
  }

  /** Files at different positions of the listing are copied to different paths, so no
      copy replaces another. */
  lemma NumberedTargetsDistinct(s1: string, n1: nat, s2: string, n2: nat)
    requires PlaceFileNumbered(s1, n1).Ok? && PlaceFileNumbered(s2, n2).Ok?
    requires n1 != n2
    ensures PlaceFileNumbered(s1, n1).value.target != PlaceFileNumbered(s2, n2).value.target
  {
    var p1 := PlaceFileNumbered(s1, n1).value;
    var p2 := PlaceFileNumbered(s2, n2).value;
    NumberedFieldOfTarget(p1.emotion, p1.actor, n1 + 1);
    NumberedFieldOfTarget(p2.emotion, p2.actor, n2 + 1);
    if p1.target == p2.target {
      Pad2Injective(n1 + 1, n2 + 1);
    }
  }

  /** The repetition field of a copy path: the sixth `-`-separated field of its stem. */
  function RepetitionField(target: Path): string {
    var fields := Split(Stem(target), '-');
    if |fields| >= 6 then fields[5] else ""
  }

  /** A numbered target carries its repetition number, two digits wide, in that field. */
  lemma NumberedFieldOfTarget(emotion: string, actor: nat, repetition: nat)
    ensures RepetitionField(NumberedTarget(emotion, actor, repetition)) == Pad2(repetition)
  {
    var code := GetEmotionCode(emotion);
    NameOfJoin(ActorDir(actor), NumberedName(code, repetition, actor));
    NumberedFields(code, repetition, actor);
  }

  /** The numbered names keep the round trip: the feature module still reads the emotion
      back from the copied file's stem. */
  lemma NumberedKeepsEmotion(stem: string, position: nat)
    requires PlaceFileNumbered(stem, position).Ok?
    ensures Features.LabelFromStem(Stem(PlaceFileNumbered(stem, position).value.target)) ==
      Ok(PlaceFileNumbered(stem, position).value.emotion)
  {
    var p := PlaceFileNumbered(stem, position).value;
    TessEmotionsAreLabels();
    LabelOfNumberedTarget(p.emotion, p.actor, position + 1);
  }

  /** A configured label copied under a numbered name is read back from the copy. */
  lemma LabelOfNumberedTarget(emotion: string, actor: nat, repetition: nat)
    requires emotion in Config.EMOTIONS
    ensures Features.LabelFromStem(Stem(NumberedTarget(emotion, actor, repetition))) == Ok(emotion)
  {
    var code := GetEmotionCode(emotion);
    NameOfJoin(ActorDir(actor), NumberedName(code, repetition, actor));
    LabelOfNumberedStem(code, repetition, actor);
  }

  lemma LabelOfNumberedStem(code: nat, repetition: nat, actor: nat)
    requires 1 <= code <= 8
    ensures Features.LabelFromStem(NumberedStem(code, repetition, actor)) == Ok(Config.EMOTIONS[code - 1])
  {
    NumberedFields(code, repetition, actor);
    LabelOfCodeField(NumberedStem(code, repetition, actor), code);
  }

  /** The new name carries only the code and the speaker, so every recording of one
      emotion by one speaker is copied to the same path, each copy replacing the one
      before, while each of them still counts as processed. */
  lemma SameEmotionSameTarget(s1: string, s2: string)
    requires PlaceFile(s1).Ok? && PlaceFile(s2).Ok?
    requires PlaceFile(s1).value.emotion == PlaceFile(s2).value.emotion
    requires PlaceFile(s1).value.actor == PlaceFile(s2).value.actor
    ensures PlaceFile(s1).value.target == PlaceFile(s2).value.target
  {
  }

  /** Conversely, a copied file's path determines its emotion. */
  lemma SameTargetSameEmotion(s1: string, s2: string)
    requires PlaceFile(s1).Ok? && PlaceFile(s2).Ok?
    requires PlaceFile(s1).value.target == PlaceFile(s2).value.target
    ensures PlaceFile(s1).value.emotion == PlaceFile(s2).value.emotion
  {
    RenamedFileKeepsEmotion(s1);
    RenamedFileKeepsEmotion(s2);
  }
}
