/**
 * Letter-by-letter sign GIFs (`LetterSignGifGenerator` in
 * server/app/letter_sign_gif_generator.py).
 *
 * The generator keeps a table from letter to image path, built from the file names in its
 * letter directory.  A text is upper-cased and stripped; if some non-space character has no
 * image the request fails with the list of missing letters, otherwise every character
 * contributes `frames_per_letter` copies of one frame (a blank frame for a space, the
 * centred letter image otherwise) and the frames are written as a GIF.
 *
 * Directory listings, image loading (which gives the size of the image after it has been
 * resized to 300 pixels high, or None when PIL fails) and the time-stamped file name are
 * parameters; pixels, drawing and GIF encoding are not modelled.
 */
module LetterSignGif {
  import opened Wrappers
  import opened PyStr
  import StrOrder

  const FrameWidth: int := 600
  const FrameHeight: int := 400
  const Fps: int := 10
  const OutputDir: string := "./"

  // ---------------------------------------------------------------- the letter table

  /** `filename.lower().endswith(('.png', '.jpg', '.jpeg', '.gif', '.bmp'))`. */
  predicate IsImageFile(name: string) {
    var l := Lower(name);
    EndsWith(l, ".png") || EndsWith(l, ".jpg") || EndsWith(l, ".jpeg") || EndsWith(l, ".gif") || EndsWith(l, ".bmp")
  }

  /** `filename.split('.')[0].upper()`: the letter an image file stands for. */
  function LetterKey(name: string): string {
    Upper(BeforeFirst(name, '.'))
  }

  /** The table `_scan_letter_images` builds from a directory listing, file by file in
      listing order. */
  function LetterIndex(dir: string, listing: seq<string>): map<string, string>
    decreases |listing|
  {
    if listing == [] then map[]
    else
      var prev := LetterIndex(dir, listing[..|listing| - 1]);
      var name := listing[|listing| - 1];
      if IsImageFile(name) then prev[LetterKey(name) := JoinPath(dir, name)] else prev
  }

  /** `_scan_letter_images` over the names `os.listdir` returned. */
  method ScanLetterImages(dir: string, listing: seq<string>) returns (letters: map<string, string>)
    ensures letters == LetterIndex(dir, listing)
  {
    letters := map[];
    for i := 0 to |listing|
      invariant letters == LetterIndex(dir, listing[..i])
    {
      var name := listing[i];
      assert listing[..i + 1][..i] == listing[..i];
      if IsImageFile(name) {
        var letter := LetterKey(name);
        letters := letters[letter := JoinPath(dir, name)];
      }
    }
    assert listing[..|listing|] == listing;
  }

  /** File `name` is registered under `key`. */
  predicate StandsFor(name: string, key: string) {
    IsImageFile(name) && LetterKey(name) == key
  }

  /** A key is in the table exactly when some image file of the listing stands for it. */
  lemma {:induction false} LetterIndexKeys(dir: string, listing: seq<string>, key: string)
    ensures key in LetterIndex(dir, listing) <==> exists j | 0 <= j < |listing| :: StandsFor(listing[j], key)
    decreases |listing|
  {
    if listing != [] {
      var init := listing[..|listing| - 1];
      var last := listing[|listing| - 1];
      LetterIndexKeys(dir, init, key);
      assert forall j | 0 <= j < |init| :: init[j] == listing[j];
      assert (exists j | 0 <= j < |listing| :: StandsFor(listing[j], key)) <==>
             (exists j | 0 <= j < |init| :: StandsFor(init[j], key)) || StandsFor(last, key);
    }
  }

  /** When several files stand for the same letter, the last one in the listing wins. */
  lemma {:induction false} LetterIndexLastWins(dir: string, listing: seq<string>, j: nat)
    requires j < |listing| && IsImageFile(listing[j])
    requires forall i | j < i < |listing| :: !StandsFor(listing[i], LetterKey(listing[j]))
    ensures LetterKey(listing[j]) in LetterIndex(dir, listing)
    ensures LetterIndex(dir, listing)[LetterKey(listing[j])] == JoinPath(dir, listing[j])
    decreases |listing|
  {
    if j < |listing| - 1 {
      var init := listing[..|listing| - 1];
      assert init[j] == listing[j];
      LetterIndexLastWins(dir, init, j);
    }
  }

  // ---------------------------------------------------------------- frame placement

  /** Where `_create_letter_frame` copies an image into the 600x400 frame: the image region
      `[yOffset:yEnd, xOffset:xEnd]` of the frame receives `img[:yEnd-yOffset, :xEnd-xOffset]`. */
  datatype Placement = Placement(xOffset: int, yOffset: int, xEnd: int, yEnd: int)

  function Max(a: int, b: int): int {
    if a >= b then a else b
  }

  function Min(a: int, b: int): int {
    if a <= b then a else b
  }

  /** The offset arithmetic of `_create_letter_frame` for an image `imgHeight` rows high and
      `imgWidth` columns wide.  Python's `//` by 2 is Dafny's `/` (both floor for a positive
      divisor, also when the image is wider than the frame). */
  function Place(imgHeight: nat, imgWidth: nat): (p: Placement)
    // the copied region lies inside the frame ...
    ensures 0 <= p.xOffset <= p.xEnd <= FrameWidth && 0 <= p.yOffset <= p.yEnd <= FrameHeight
    // ... and inside the image, so both slices have the same size
    ensures p.xEnd - p.xOffset <= imgWidth && p.yEnd - p.yOffset <= imgHeight
    // an image that fits is copied whole and centred, the right (bottom) margin being at
    // most one pixel wider than the left (top) one
    ensures imgWidth <= FrameWidth ==>
              p.xEnd - p.xOffset == imgWidth && p.xOffset <= FrameWidth - p.xEnd <= p.xOffset + 1
    ensures imgHeight <= FrameHeight ==>
              p.yEnd - p.yOffset == imgHeight && p.yOffset <= FrameHeight - p.yEnd <= p.yOffset + 1
    // an image that does not fit is clipped to the frame from its top-left corner
    ensures imgWidth > FrameWidth ==> p.xOffset == 0 && p.xEnd == FrameWidth
    ensures imgHeight > FrameHeight ==> p.yOffset == 0 && p.yEnd == FrameHeight
  {
    var xOffset := Max(0, (FrameWidth - imgWidth) / 2);
    var yOffset := Max(0, (FrameHeight - imgHeight) / 2);
    Placement(xOffset, yOffset, Min(FrameWidth, xOffset + imgWidth), Min(FrameHeight, yOffset + imgHeight))
  }

  // ---------------------------------------------------------------- frame planning

  /** The size of a letter image after `_resize_letter_image`. */
  datatype ImageSize = ImageSize(height: nat, width: nat)

  /** One frame of the GIF: the blank frame of a space, or a letter image placed in the frame;
      both carry the letter and its "index/total" counter drawn by `_add_letter_info`. */
  datatype LetterFrame =
    | BlankFrame(letter: char, index: nat, total: nat)
    | ImageFrame(letter: char, index: nat, total: nat, place: Placement)

  /** `int(duration_per_letter * fps)`: truncation toward zero. */
  function FramesPerLetter(durationPerLetter: real): int {
    var x := durationPerLetter * Fps as real;
    if x >= 0.0 then x.Floor else -((-x).Floor)
  }

  /** `range(n)` has `n` elements when `n` is positive and none otherwise. */
  function Copies(n: int): nat {
    if n < 0 then 0 else n
  }

  function Repeat<T>(x: T, n: nat): (r: seq<T>)
    ensures |r| == n && forall k | 0 <= k < n :: r[k] == x
  {
    seq(n, _ => x)
  }

  /** The frames letter number `idx` contributes: `reps` blank frames for a space, nothing
      for a letter without a path or whose image fails to load, `reps` image frames otherwise. */
  function LetterBlock(letters: seq<char>, idx: nat, reps: int, letterPaths: map<string, string>,
                       load: string -> Option<ImageSize>): seq<LetterFrame>
    requires idx < |letters|
  {
    var c := letters[idx];
    if c == ' ' then Repeat(BlankFrame(c, idx, |letters|), Copies(reps))
    else if [c] !in letterPaths || letterPaths[[c]] == [] then []
    else
      match load(letterPaths[[c]])
      case None => []
      case Some(size) => Repeat(ImageFrame(c, idx, |letters|, Place(size.height, size.width)), Copies(reps))
  }

  /** The frames of the first `n` letters, in order. */
  function PlannedFrames(letters: seq<char>, n: nat, reps: int, letterPaths: map<string, string>,
                         load: string -> Option<ImageSize>): seq<LetterFrame>
    requires n <= |letters|
  {
    if n == 0 then [] else PlannedFrames(letters, n - 1, reps, letterPaths, load) + LetterBlock(letters, n - 1, reps, letterPaths, load)
  }

  /** Whether letter number `idx` shows up in the GIF at all: a space, or a letter with a
      path whose image loads. */
  predicate Shown(letters: seq<char>, idx: nat, letterPaths: map<string, string>, load: string -> Option<ImageSize>)
    requires idx < |letters|
  {
    var c := letters[idx];
    c == ' ' || ([c] in letterPaths && letterPaths[[c]] != [] && load(letterPaths[[c]]).Some?)
  }

  function ShownCount(letters: seq<char>, n: nat, letterPaths: map<string, string>, load: string -> Option<ImageSize>): nat
    requires n <= |letters|
  {
    if n == 0 then 0
    else ShownCount(letters, n - 1, letterPaths, load) + (if Shown(letters, n - 1, letterPaths, load) then 1 else 0)
  }

  lemma LetterBlockSize(letters: seq<char>, idx: nat, reps: int, letterPaths: map<string, string>,
                         load: string -> Option<ImageSize>)
    requires idx < |letters|
    ensures |LetterBlock(letters, idx, reps, letterPaths, load)| ==
            if Shown(letters, idx, letterPaths, load) then Copies(reps) else 0
  {
  }

  /** The frames made for the first `n` letters, counted letter by letter. */
  function ShownFrames(letters: seq<char>, n: nat, reps: int, letterPaths: map<string, string>,
                       load: string -> Option<ImageSize>): nat
    requires n <= |letters|
  {
    if n == 0 then 0
    else ShownFrames(letters, n - 1, reps, letterPaths, load) + (if Shown(letters, n - 1, letterPaths, load) then Copies(reps) else 0)
  }

  lemma {:induction false} PlannedFramesLength(letters: seq<char>, n: nat, reps: int, letterPaths: map<string, string>,
                                               load: string -> Option<ImageSize>)
    requires n <= |letters|
    ensures |PlannedFrames(letters, n, reps, letterPaths, load)| == ShownFrames(letters, n, reps, letterPaths, load)
  {
    if n > 0 {
      PlannedFramesLength(letters, n - 1, reps, letterPaths, load);
      LetterBlockSize(letters, n - 1, reps, letterPaths, load);
    }
  }

  lemma {:induction false} ShownFramesProduct(letters: seq<char>, n: nat, reps: int, letterPaths: map<string, string>,
                                              load: string -> Option<ImageSize>)
    requires n <= |letters|
    ensures ShownFrames(letters, n, reps, letterPaths, load) == Copies(reps) * ShownCount(letters, n, letterPaths, load)
  {
    if n > 0 {
      ShownFramesProduct(letters, n - 1, reps, letterPaths, load);
      MulStep(Copies(reps), ShownCount(letters, n - 1, letterPaths, load), Shown(letters, n - 1, letterPaths, load));
    }
  }

  /** Frame accounting: `frames_per_letter` frames for every space and every letter whose
      image loads, none for the others. */
  lemma FrameCount(letters: seq<char>, n: nat, reps: int, letterPaths: map<string, string>,
                   load: string -> Option<ImageSize>)
    requires n <= |letters|
    ensures |PlannedFrames(letters, n, reps, letterPaths, load)| == Copies(reps) * ShownCount(letters, n, letterPaths, load)
  {
    PlannedFramesLength(letters, n, reps, letterPaths, load);
    ShownFramesProduct(letters, n, reps, letterPaths, load);
  }

  lemma MulStep(c: nat, p: nat, b: bool)
    ensures c * (p + (if b then 1 else 0)) == c * p + (if b then c else 0)
  {
  }

  /** The characters of `text` that are neither a space nor a letter with an image, in order
      and with repetitions. */
  function MissingLetters(text: seq<char>, letterPaths: map<string, string>): (r: seq<char>)
    ensures forall k | 0 <= k < |r| :: r[k] in text && r[k] != ' ' && [r[k]] !in letterPaths
    ensures forall k | 0 <= k < |text| :: text[k] != ' ' && [text[k]] !in letterPaths ==> text[k] in r
  {
    if text == [] then []
    else
      var rest := MissingLetters(text[1..], letterPaths);
      assert forall c | c in text[1..] :: c in text;
      assert forall k | 1 <= k < |text| :: text[k] == text[1..][k - 1];
      if text[0] != ' ' && [text[0]] !in letterPaths then [text[0]] + rest else rest
  }

  /** `', '.join(missing_letters)`. */
  function MissingList(missing: seq<char>): string {
    Join(seq(|missing|, k requires 0 <= k < |missing| => [missing[k]]), ", ")
  }

  /** `text.upper().strip()`: the characters spelled out. */
  function GifText(text: string): string {
    StripSpace(Upper(text))
  }

  function NonSpaceCount(text: seq<char>): nat {
    if text == [] then 0 else (if text[0] != ' ' then 1 else 0) + NonSpaceCount(text[1..])
  }

  /** `len([l for l in letters if l != ' ']) * duration_per_letter`. */
  function SpokenDuration(letters: seq<char>, durationPerLetter: real): real {
    NonSpaceCount(letters) as real * durationPerLetter
  }

  /** Once validation has passed, every character that is not a space has an image path,
      so a letter counts in the GIF exactly when it is a space or its image loads. */
  lemma ValidatedLettersHavePaths(text: seq<char>, letterPaths: map<string, string>, idx: nat)
    requires MissingLetters(text, letterPaths) == [] && idx < |text| && text[idx] != ' '
    ensures [text[idx]] in letterPaths
  {
  }

  /** When each letter lasts less than a tenth of a second no frame is made at all. */
  lemma {:induction false} ShortDurationMakesNoFrames(letters: seq<char>, durationPerLetter: real,
                                                      letterPaths: map<string, string>, load: string -> Option<ImageSize>)
    requires durationPerLetter < 0.1
    ensures PlannedFrames(letters, |letters|, FramesPerLetter(durationPerLetter), letterPaths, load) == []
  {
    var reps := FramesPerLetter(durationPerLetter);
    assert Copies(reps) == 0;
    FrameCount(letters, |letters|, reps, letterPaths, load);
  }

  /** Text that is empty or all whitespace passes validation and makes no frame, so it
      ends in "Failed to create GIF". */
  lemma BlankTextMakesNoFrames(text: string, durationPerLetter: real, letterPaths: map<string, string>,
                               load: string -> Option<ImageSize>)
    requires forall k | 0 <= k < |text| :: IsSpace(text[k])
    ensures MissingLetters(GifText(text), letterPaths) == []
    ensures PlannedFrames(GifText(text), |GifText(text)|, FramesPerLetter(durationPerLetter), letterPaths, load) == []
  {
    var upper := Upper(text);
    forall k | 0 <= k < |upper| ensures upper[k] in Whitespace {
      CaseKeepsSpace(text[k]);
    }
    StripEmptyIff(upper, Whitespace);
  }

  // ---------------------------------------------------------------- the generator

  datatype LetterGifResult =
    | Created(gifPath: string, filename: string, text: string, letters: seq<char>, duration: real)
    | MissingImages(error: string, available: seq<string>)
    | Failed(error: string)

  datatype UploadResult =
    | Uploaded(copied: seq<string>, totalAvailable: nat)
    | UploadError(error: string)

  /** The names of a listing that are image files, in listing order. */
  function ImageFiles(listing: seq<string>): (r: seq<string>)
    ensures forall k | 0 <= k < |r| :: IsImageFile(r[k]) && r[k] in listing
    ensures forall k | 0 <= k < |listing| :: IsImageFile(listing[k]) ==> listing[k] in r
  {
    if listing == [] then []
    else
      var init := listing[..|listing| - 1];
      var last := listing[|listing| - 1];
      var prev := ImageFiles(init);
      assert forall k | 0 <= k < |init| :: init[k] == listing[k];
      if IsImageFile(last) then prev + [last] else prev
  }

  class LetterSignGifGenerator {
    var lettersDir: string
    var availableLetters: map<string, string>

    /** `__init__`: scans the (created if absent) letter directory, given by its listing. */
    constructor (lettersDir: string, listing: seq<string>)
      ensures this.lettersDir == lettersDir
      ensures availableLetters == LetterIndex(lettersDir, listing)
    {
      this.lettersDir := lettersDir;
      var letters := ScanLetterImages(lettersDir, listing);
      availableLetters := letters;
    }

    /** `_create_letter_gif`: the frames written to the GIF and the path written to,
        or None when there is no frame. */
    method CreateLetterGif(letters: seq<char>, durationPerLetter: real, load: string -> Option<ImageSize>,
                           fileName: string) returns (path: Option<string>, frames: seq<LetterFrame>)
      ensures frames == PlannedFrames(letters, |letters|, FramesPerLetter(durationPerLetter), availableLetters, load)
      ensures path == if frames == [] then None else Some(JoinPath(OutputDir, fileName))
    {
      var reps := FramesPerLetter(durationPerLetter);
      frames := [];
      for idx := 0 to |letters|
        invariant frames == PlannedFrames(letters, idx, reps, availableLetters, load)
      {
        var letter := letters[idx];
        if letter == ' ' {
          frames := AppendCopies(frames, BlankFrame(letter, idx, |letters|), reps);
        } else if [letter] in availableLetters && availableLetters[[letter]] != [] {
          var image := load(availableLetters[[letter]]);
          if image.Some? {
            var frame := ImageFrame(letter, idx, |letters|, Place(image.value.height, image.value.width));
            frames := AppendCopies(frames, frame, reps);
          }
        }
      }
      if frames != [] {
        path := Some(JoinPath(OutputDir, fileName));
      } else {
        path := None;
      }
    }

    /** `text_to_gif`. */
    method TextToGif(text: string, durationPerLetter: real, load: string -> Option<ImageSize>, fileName: string)
      returns (r: LetterGifResult)
      ensures r.MissingImages? <==> MissingLetters(GifText(text), availableLetters) != []
      ensures r.MissingImages? ==>
                && r.error == "Missing letter images: " + MissingList(MissingLetters(GifText(text), availableLetters))
                && StrOrder.StrictlySorted(r.available)
                && (forall k :: k in r.available <==> k in availableLetters)
      ensures r.Failed? <==>
                && MissingLetters(GifText(text), availableLetters) == []
                && PlannedFrames(GifText(text), |GifText(text)|, FramesPerLetter(durationPerLetter), availableLetters, load) == []
      ensures r.Failed? ==> r.error == "Failed to create GIF"
      ensures r.Created? ==>
                && r.gifPath == JoinPath(OutputDir, fileName)
                && r.filename == BaseName(r.gifPath)
                && r.text == GifText(text) && r.letters == GifText(text)
                && r.duration == SpokenDuration(GifText(text), durationPerLetter)
    {
      var t := GifText(text);
      var letters := t;
      var missing := MissingLetters(letters, availableLetters);
      if missing != [] {
        var available := StrOrder.SortedStrings(availableLetters.Keys);
        return MissingImages("Missing letter images: " + MissingList(missing), available);
      }
      var gifPath, _ := CreateLetterGif(letters, durationPerLetter, load, fileName);
      if gifPath.None? {
        return Failed("Failed to create GIF");
      }
      r := Created(gifPath.value, BaseName(gifPath.value), t, letters, SpokenDuration(letters, durationPerLetter));
    }

    /** `get_available_letters`. */
    method GetAvailableLetters() returns (available: seq<string>, count: nat, directory: string)
      ensures StrOrder.StrictlySorted(available)
      ensures forall k :: k in available <==> k in availableLetters
      ensures count == |availableLetters| == |available|
      ensures directory == lettersDir
    {
      available := StrOrder.SortedStrings(availableLetters.Keys);
      count := |availableLetters|;
      directory := lettersDir;
    }

    /** `upload_letter_images`: `source` is the listing of the directory to copy from (None
        when it does not exist) and `rescanned` the listing of the letter directory after the
        copy. */
    method UploadLetterImages(imagesDir: string, source: Option<seq<string>>, rescanned: seq<string>)
      returns (r: UploadResult)
      modifies this
      ensures lettersDir == old(lettersDir)
      ensures source.None? ==> r == UploadError("Directory not found: " + imagesDir) && availableLetters == old(availableLetters)
      ensures source.Some? ==>
                && availableLetters == LetterIndex(lettersDir, rescanned)
                && r == Uploaded(ImageFiles(source.value), |availableLetters|)
    {
      if source.None? {
        return UploadError("Directory not found: " + imagesDir);
      }
      var listing := source.value;
      var copied := [];
      for i := 0 to |listing|
        invariant copied == ImageFiles(listing[..i])
      {
        assert listing[..i + 1][..i] == listing[..i];
        if IsImageFile(listing[i]) {
          copied := copied + [listing[i]];
        }
      }
      assert listing[..|listing|] == listing;
      availableLetters := ScanLetterImages(lettersDir, rescanned);
      r := Uploaded(copied, |availableLetters|);
    }
  }

  /** `for _ in range(frames_per_letter): frames.append(frame)`. */
  method AppendCopies(frames: seq<LetterFrame>, frame: LetterFrame, reps: int) returns (frames': seq<LetterFrame>)
    ensures frames' == frames + Repeat(frame, Copies(reps))
  {
    frames' := frames;
    var j := 0;
    while j < reps
      invariant 0 <= j <= Copies(reps)
      invariant frames' == frames + Repeat(frame, j)
    {
      frames' := frames' + [frame];
      j := j + 1;
    }
  }
}
