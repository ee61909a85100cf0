/**
 * Word-by-word sign GIFs (`SignLanguageGifGenerator` in server/app/sign_gif_generator.py).
 *
 * The generator holds a fixed database from sign word to a pose: a declared frame count, a
 * list of hand positions made by one of twelve gesture generators, and a description.  A
 * text becomes a list of signs (lower-cased words with punctuation stripped, nine stopwords
 * dropped unless they are signs), and every sign contributes one GIF frame per hand position
 * of its pose, ten for a word the database does not know.
 *
 * The hand coordinates (computed with sin and cos), the drawing and the GIF encoding are not
 * modelled: a position records which gesture and which step of it it is.  The time-stamped
 * file name is a parameter.
 */
module SignGif {
  import opened Wrappers
  import opened PyStr

  const OutputDir: string := "/tmp"

  /** Hand positions of a sign the database does not know: `[(300, 250)] * 10`. */
  const DefaultPositionCount: nat := 10
  const RestX: int := 300
  const RestY: int := 250

  // ---------------------------------------------------------------- gestures and poses

  /** The twelve `_generate_*_positions` generators. */
  datatype Gesture = Wave | Circle | Point | Thank | ThumbsUp | Nod | Shake | Down | Lift | Heart | Cross | Shrug

  /** The loop bound of each generator. */
  function Steps(g: Gesture): nat {
    match g
    case Wave => 15
    case Circle => 15
    case Point => 10
    case Thank => 12
    case ThumbsUp => 10
    case Nod => 10
    case Shake => 12
    case Down => 12
    case Lift => 12
    case Heart => 12
    case Cross => 10
    case Shrug => 12
  }

  /** A hand position: step `step` of a gesture's path, or a fixed point. */
  datatype HandPosition = PathPoint(gesture: Gesture, step: nat) | Fixed(x: int, y: int)

  /** The positions a generator returns, one per loop step, in step order. */
  function Path(g: Gesture): (r: seq<HandPosition>)
    ensures |r| == Steps(g)
    ensures forall i | 0 <= i < |r| :: r[i] == PathPoint(g, i)
  {
    seq(Steps(g), i requires 0 <= i < Steps(g) => PathPoint(g, i))
  }

  /** `_generate_<gesture>_positions`: `for i in range(n): positions.append(...)`. */
  method GeneratePositions(g: Gesture) returns (positions: seq<HandPosition>)
    ensures |positions| == Steps(g)
    ensures positions == Path(g)
  {
    positions := [];
    for i := 0 to Steps(g)
      invariant |positions| == i
      invariant forall j | 0 <= j < i :: positions[j] == PathPoint(g, j)
    {
      positions := positions + [PathPoint(g, i)];
    }
  }

  /** One database record: `{"frames": ..., "hand_positions": ..., "description": ...}`. */
  datatype SignPose = SignPose(frames: nat, positions: seq<HandPosition>, description: string)

  /** The dictionary literal of `_load_sign_poses`, given the lists the twelve generators
      return. */
  function DatabaseOf(wave: seq<HandPosition>, circle: seq<HandPosition>, point: seq<HandPosition>,
                      thank: seq<HandPosition>, thumbsUp: seq<HandPosition>, nod: seq<HandPosition>,
                      shake: seq<HandPosition>, down: seq<HandPosition>, lift: seq<HandPosition>,
                      heart: seq<HandPosition>, cross: seq<HandPosition>, shrug: seq<HandPosition>): map<string, SignPose>
  {
    map[
      "hello" := SignPose(15, wave, "Wave hand"),
      "hi" := SignPose(12, wave, "Quick wave"),
      "how" := SignPose(15, circle, "Circular motion"),
      "are" := SignPose(10, point, "Point outward"),
      "you" := SignPose(10, point, "Point to you"),
      "thank" := SignPose(12, thank, "Hand to chest"),
      "thanks" := SignPose(12, thank, "Hand to chest"),
      "good" := SignPose(10, thumbsUp, "Thumbs up"),
      "yes" := SignPose(10, nod, "Nod motion"),
      "no" := SignPose(12, shake, "Shake motion"),
      "water" := SignPose(12, down, "Move downward"),
      "help" := SignPose(12, lift, "Hands lifting"),
      "love" := SignPose(12, heart, "Heart shape"),
      "name" := SignPose(10, cross, "Crossing motion"),
      "what" := SignPose(12, shrug, "Shrug motion")
    ]
  }

  /** The database `__init__` builds. */
  function Database(): map<string, SignPose> {
    DatabaseOf(Path(Wave), Path(Circle), Path(Point), Path(Thank), Path(ThumbsUp), Path(Nod),
               Path(Shake), Path(Down), Path(Lift), Path(Heart), Path(Cross), Path(Shrug))
  }

  /** `_load_sign_poses`, calling one generator per entry. */
  method LoadSignPoses() returns (db: map<string, SignPose>)
    ensures db == Database()
  {
    var wave := GeneratePositions(Wave);
    var circle := GeneratePositions(Circle);
    var point := GeneratePositions(Point);
    var thank := GeneratePositions(Thank);
    var thumbsUp := GeneratePositions(ThumbsUp);
    var nod := GeneratePositions(Nod);
    var shake := GeneratePositions(Shake);
    var down := GeneratePositions(Down);
    var lift := GeneratePositions(Lift);
    var heart := GeneratePositions(Heart);
    var cross := GeneratePositions(Cross);
    var shrug := GeneratePositions(Shrug);
    db := DatabaseOf(wave, circle, point, thank, thumbsUp, nod, shake, down, lift, heart, cross, shrug);
  }

  /** Every pose of `m` has at least ten hand positions. */
  predicate LongPoses(m: map<string, SignPose>) {
    forall key | key in m :: |m[key].positions| >= DefaultPositionCount
  }

  lemma InsertLongPose(m: map<string, SignPose>, key: string, g: Gesture, frames: nat, description: string)
    requires LongPoses(m)
    ensures LongPoses(m[key := SignPose(frames, Path(g), description)])
  {
    assert Steps(g) >= DefaultPositionCount;
  }

  /** Every pose in the database has at least ten hand positions. */
  lemma DatabasePosesHaveTenPositions()
    ensures forall key | key in Database() :: |Database()[key].positions| >= DefaultPositionCount
  {
    var m: map<string, SignPose> := map[];
    InsertLongPose(m, "hello", Wave, 15, "Wave hand");
    m := m["hello" := SignPose(15, Path(Wave), "Wave hand")];
    InsertLongPose(m, "hi", Wave, 12, "Quick wave");
    m := m["hi" := SignPose(12, Path(Wave), "Quick wave")];
    InsertLongPose(m, "how", Circle, 15, "Circular motion");
    m := m["how" := SignPose(15, Path(Circle), "Circular motion")];
    InsertLongPose(m, "are", Point, 10, "Point outward");
    m := m["are" := SignPose(10, Path(Point), "Point outward")];
    InsertLongPose(m, "you", Point, 10, "Point to you");
    m := m["you" := SignPose(10, Path(Point), "Point to you")];
    InsertLongPose(m, "thank", Thank, 12, "Hand to chest");
    m := m["thank" := SignPose(12, Path(Thank), "Hand to chest")];
    InsertLongPose(m, "thanks", Thank, 12, "Hand to chest");
    m := m["thanks" := SignPose(12, Path(Thank), "Hand to chest")];
    InsertLongPose(m, "good", ThumbsUp, 10, "Thumbs up");
    m := m["good" := SignPose(10, Path(ThumbsUp), "Thumbs up")];
    InsertLongPose(m, "yes", Nod, 10, "Nod motion");
    m := m["yes" := SignPose(10, Path(Nod), "Nod motion")];
    InsertLongPose(m, "no", Shake, 12, "Shake motion");
    m := m["no" := SignPose(12, Path(Shake), "Shake motion")];
    InsertLongPose(m, "water", Down, 12, "Move downward");
    m := m["water" := SignPose(12, Path(Down), "Move downward")];
    InsertLongPose(m, "help", Lift, 12, "Hands lifting");
    m := m["help" := SignPose(12, Path(Lift), "Hands lifting")];
    InsertLongPose(m, "love", Heart, 12, "Heart shape");
    m := m["love" := SignPose(12, Path(Heart), "Heart shape")];
    InsertLongPose(m, "name", Cross, 10, "Crossing motion");
    m := m["name" := SignPose(10, Path(Cross), "Crossing motion")];
    InsertLongPose(m, "what", Shrug, 12, "Shrug motion");
    m := m["what" := SignPose(12, Path(Shrug), "Shrug motion")];
    assert m == Database();
  }

  /** The declared `frames` of a pose is not what is drawn: "hi" declares 12 frames but
      carries the 15 positions of the wave. */
  lemma DeclaredFramesAreNotDrawn()
    ensures "hi" in Database()
    ensures Database()["hi"].frames == 12 && |Database()["hi"].positions| == 15
  {
  }

  // ---------------------------------------------------------------- text to signs

  /** The characters `word.strip('.,!?;:\'"')` removes. */
  const Punctuation: set<char> := {'.', ',', '!', '?', ';', ':', '\'', '"'}

  /** Words skipped when they are not signs. */
  const Stopwords: seq<string> := ["the", "a", "an", "is", "and", "or", "in", "on", "at"]

  function CleanWord(word: string): string {
    Strip(word, Punctuation)
  }

  /** The signs `_text_to_signs` collects from `words`, in order: the cleaned word when it is a
      sign, nothing when it is a stopword, and otherwise the cleaned word all the same. */
  function KeptSigns(words: seq<string>, db: map<string, SignPose>): (r: seq<string>)
    ensures |r| <= |words|
    ensures forall k | 0 <= k < |r| :: r[k] in db || r[k] !in Stopwords
  {
    if words == [] then []
    else
      var prev := KeptSigns(words[..|words| - 1], db);
      var clean := CleanWord(words[|words| - 1]);
      if clean in db then prev + [clean]
      else if clean in Stopwords then prev
      else prev + [clean]
  }

  /** The cleaned words that are not stopwords, in order. */
  function WithoutStopwords(words: seq<string>): seq<string> {
    if words == [] then []
    else
      var prev := WithoutStopwords(words[..|words| - 1]);
      var clean := CleanWord(words[|words| - 1]);
      if clean in Stopwords then prev else prev + [clean]
  }

  /** No stopword is a sign of the database. */
  lemma StopwordsAreNotSigns()
    ensures forall w | w in Stopwords :: w !in Database()
  {
  }

  /** Because no stopword is a sign, looking words up in the database changes nothing: the
      signs are just the cleaned words minus the stopwords. */
  lemma {:induction false} KeptSignsDropOnlyStopwords(words: seq<string>)
    ensures KeptSigns(words, Database()) == WithoutStopwords(words)
    decreases |words|
  {
    if words != [] {
      StopwordsAreNotSigns();
      KeptSignsDropOnlyStopwords(words[..|words| - 1]);
    }
  }

  /** A word made only of punctuation survives as an empty sign. */
  lemma {:induction false} PunctuationWordGivesEmptySign(word: string, db: map<string, SignPose>)
    requires word != [] && forall k | 0 <= k < |word| :: word[k] in Punctuation
    requires "" !in db
    ensures KeptSigns([word], db) == [""]
  {
    StripEmptyIff(word, Punctuation);
    assert [word][..0] == [];
  }

  // ---------------------------------------------------------------- frames

  /** `self.sign_database.get(sign, default)`. */
  function PoseFor(sign: string, db: map<string, SignPose>): SignPose {
    if sign in db then db[sign]
    else SignPose(DefaultPositionCount, seq(DefaultPositionCount, _ => Fixed(RestX, RestY)), sign)
  }

  /** One GIF frame: the sign (drawn upper-cased), its description, its "index/total"
      counter and the hand position. */
  datatype SignFrame = SignFrame(sign: string, description: string, index: nat, total: nat, hand: HandPosition)

  /** The frames of sign number `idx`, one per hand position of its pose. */
  function SignBlock(signs: seq<string>, idx: nat, db: map<string, SignPose>): (r: seq<SignFrame>)
    requires idx < |signs|
    ensures |r| == |PoseFor(signs[idx], db).positions|
  {
    var pose := PoseFor(signs[idx], db);
    seq(|pose.positions|, k requires 0 <= k < |pose.positions| =>
      SignFrame(signs[idx], pose.description, idx, |signs|, pose.positions[k]))
  }

  /** The frames of the first `n` signs, in order. */
  function PlannedFrames(signs: seq<string>, n: nat, db: map<string, SignPose>): seq<SignFrame>
    requires n <= |signs|
  {
    if n == 0 then [] else PlannedFrames(signs, n - 1, db) + SignBlock(signs, n - 1, db)
  }

  /** The number of hand positions of the first `n` signs. */
  function TotalPositions(signs: seq<string>, n: nat, db: map<string, SignPose>): nat
    requires n <= |signs|
  {
    if n == 0 then 0 else TotalPositions(signs, n - 1, db) + |PoseFor(signs[n - 1], db).positions|
  }

  /** Frame accounting: one frame per hand position of every sign. */
  lemma {:induction false} FrameCount(signs: seq<string>, n: nat, db: map<string, SignPose>)
    requires n <= |signs|
    ensures |PlannedFrames(signs, n, db)| == TotalPositions(signs, n, db)
  {
    if n > 0 {
      FrameCount(signs, n - 1, db);
    }
  }

  /** With the built-in database every sign, known or not, gives at least ten frames. */
  lemma {:induction false} AtLeastTenFramesPerSign(signs: seq<string>, n: nat)
    requires n <= |signs|
    ensures TotalPositions(signs, n, Database()) >= DefaultPositionCount * n
  {
    if n > 0 {
      AtLeastTenFramesPerSign(signs, n - 1);
      DatabasePosesHaveTenPositions();
    }
  }

  /** So a non-empty sign list always yields frames, and "Failed to create GIF" is out of reach. */
  lemma SignsAlwaysGiveFrames(signs: seq<string>)
    requires signs != []
    ensures PlannedFrames(signs, |signs|, Database()) != []
  {
    FrameCount(signs, |signs|, Database());
    AtLeastTenFramesPerSign(signs, |signs|);
  }

  // ---------------------------------------------------------------- the generator

  datatype SignGifResult =
    | Created(gifPath: string, filename: string, text: string, signs: seq<string>, duration: real)
    | Failed(error: string)

  class SignLanguageGifGenerator {
    var database: map<string, SignPose>

    /** `__init__`. */
    constructor ()
      ensures database == Database()
    {
      var db := LoadSignPoses();
      database := db;
    }

    /** `_text_to_signs`. */
    method TextToSigns(text: string) returns (signs: seq<string>)
      ensures signs == KeptSigns(Split(Lower(text)), database)
    {
      var words := Split(Lower(text));
      signs := [];
      for i := 0 to |words|
        invariant signs == KeptSigns(words[..i], database)
      {
        var cleanWord := CleanWord(words[i]);
        assert words[..i + 1][..i] == words[..i];
        if cleanWord in database {
          signs := signs + [cleanWord];
        } else if cleanWord !in Stopwords {
          signs := signs + [cleanWord];
        }
      }
      assert words[..|words|] == words;
    }

    /** `_create_gif`: the frames written to the GIF and the path written to, or None when
        there is no frame. */
    method CreateGif(signs: seq<string>, fileName: string) returns (path: Option<string>, frames: seq<SignFrame>)
      ensures frames == PlannedFrames(signs, |signs|, database)
      ensures path == if frames == [] then None else Some(JoinPath(OutputDir, fileName))
    {
      frames := [];
      for signIdx := 0 to |signs|
        invariant frames == PlannedFrames(signs, signIdx, database)
      {
        var sign := signs[signIdx];
        var signInfo := PoseFor(sign, database);
        var positions := signInfo.positions;
        ghost var before := frames;
        for frameIdx := 0 to |positions|
          invariant frames == before + SignBlock(signs, signIdx, database)[..frameIdx]
        {
          frames := frames + [SignFrame(sign, signInfo.description, signIdx, |signs|, positions[frameIdx])];
        }
        assert SignBlock(signs, signIdx, database)[..|positions|] == SignBlock(signs, signIdx, database);
      }
      if frames != [] {
        path := Some(JoinPath(OutputDir, fileName));
      } else {
        path := None;
      }
    }

    /** `text_to_gif`. */
    method TextToGif(text: string, fileName: string) returns (r: SignGifResult)
      ensures var signs := KeptSigns(Split(Lower(text)), database);
        && (signs == [] ==> r == Failed("No signs found for text"))
        && (signs != [] && PlannedFrames(signs, |signs|, database) == [] ==> r == Failed("Failed to create GIF"))
        && (r.Created? <==> signs != [] && PlannedFrames(signs, |signs|, database) != [])
        && (r.Created? ==>
              && r.gifPath == JoinPath(OutputDir, fileName)
              && r.filename == BaseName(r.gifPath)
              && r.text == text && r.signs == signs
              && r.duration == |signs| as real)
      ensures database == Database() ==> (r.Created? <==> KeptSigns(Split(Lower(text)), database) != [])
    {
      var signs := TextToSigns(text);
      if signs != [] && database == Database() {
        SignsAlwaysGiveFrames(signs);
      }
      if signs == [] {
        return Failed("No signs found for text");
      }
      var gifPath, _ := CreateGif(signs, fileName);
      if gifPath.None? {
        return Failed("Failed to create GIF");
      }
      r := Created(gifPath.value, BaseName(gifPath.value), text, signs, |signs| as real * 1.0);
    }
  }
}
