# HearMate server core in Dafny

This project models the four pieces of sequential logic in the HearMate server (`server/app/`) and proves properties about them:

- **Streaming speech recognition buffer** (`ASRProcessor`, module `Asr`). The processor is a class with two fields, the audio sample buffer and the chunk counter. Each incoming chunk is handled as follows:
  - the chunk is counted and decoded;
  - the decoded samples are appended to the buffer;
  - once the buffer holds at least 5 seconds of 16 kHz audio (80 000 samples), the whole buffer goes to the transcriber.

  Every non-empty chunk produces exactly one event. The chunk decoder (ffmpeg) and the transcriber (Whisper) are parameters: total functions that return `Option<seq<int>>` and `Transcribed(text) | Raised(error)`. The signed 16-bit little-endian sample decoding used when reading the decoder's WAV output is modelled on its own, with both round trips proved.
- **Phrase-to-sign translator** (`ISLTranslator.translate`, module `IslTranslator`). Greedy longest-phrase matching (3, then 2, then 1 words) of the lower-cased, whitespace-split text against a mapping from phrase to sign entries. Each emitted sign starts when every sign emitted before it has finished. The mapping is a parameter, and durations are exact `real`s.
- **Letter-by-letter sign GIFs** (`LetterSignGifGenerator`, module `LetterSignGif`):
  - the letter table built from a directory listing;
  - validation of the text against that table;
  - the per-letter frame plan;
  - the centring and clipping arithmetic that places a letter image in the 600×400 frame;
  - the duration rule;
  - the listing and upload operations.

  Loading an image is a parameter that gives the size after resizing, or None.
- **Word-by-word sign GIFs** (`SignLanguageGifGenerator`, module `SignGif`):
  - the fixed sign database (15 words, 12 gesture generators and their step counts);
  - the text-to-signs pipeline (lower-case, split, strip punctuation, drop nine stopwords);
  - frame accounting: one frame per hand position, 10 for unknown words;
  - the result rules.

Two supporting modules hold the Python built-ins the code relies on:

- `PyStr`: `lower`/`upper` on ASCII, `split()`, `strip`, `join`, `endswith`, `str(int)`, slicing, `os.path.join` and `os.path.basename`.
- `StrOrder`: Python's string order and `sorted` over a set of keys.

`Wrappers` holds `Option`.

Each stateful operation is a method proved against a pure specification function:

- `Asr.Step` and `Asr.Flush` for the processor;
- `IslTranslator.MatchFrom` with `IslTranslator.Scheduled` for the translator;
- `LetterSignGif.LetterIndex` and `LetterSignGif.PlannedFrames` for the letter generator;
- `SignGif.KeptSigns` and `SignGif.PlannedFrames` for the sign generator.

The lemmas state the promised properties in terms of those functions.

### Behaviour worth noting

- When the transcriber raises, `_transcribe_buffer` does **not** clear the buffer (`server/app/asr.py:155-157`). The next chunk that decodes therefore sends the same samples, plus its own, to the transcriber again. An empty chunk or one that fails to decode returns before the transcriber is called (`server/app/asr.py:35-37`, `:56-57`).
- The transcription error text is cut to **50** characters (`server/app/asr.py:157`). The 100-character cut belongs to the outer handler of `push_audio_chunk_and_get_events` (`server/app/asr.py:59-61`).
- With 9 600-sample chunks (0.6 s at 16 kHz) the flush comes on the ninth chunk: 8 × 9 600 = 76 800 < 80 000 ≤ 86 400 = 9 × 9 600.

## Model

| member | source | states |
|---|---|---|
| `Asr.ListeningText` | server/app/asr.py:55 | The interim text "Listening... (N chunks)" with N written in decimal. A definition with no contract of its own; `BelowThresholdAppends` states when it is sent. |
| `Asr.TranscriptionErrorText` | server/app/asr.py:157 | "Transcription error: " followed by the first 50 characters of the error text. A definition with no contract of its own; `PyStr.Prefix` states the cut and `ThresholdTranscribesWholeBuffer` when it is sent. |
| `Asr.Flush` | server/app/asr.py:128-157 | What `_transcribe_buffer` does: an empty buffer gives no event, a non-empty one exactly one. The buffer is kept exactly when it is empty or the transcriber raises, and is emptied otherwise. |
| `Asr.Step` | server/app/asr.py:29-61 | What one push does: an empty chunk gives no event and leaves the count alone; any other chunk gives exactly one event and raises the count by one. The branches are those of the code (decode failure, append below the threshold, flush at or above it). |
| `Asr.Run` | server/app/asr.py:29-61 | A stream of pushes handled one after the other, the events concatenated in the order sent. It is a definition with no contract of its own; `OneEventPerNonEmptyChunk`, `NoFinalWithoutSpeech` and `BufferStaysBelowThreshold` state its properties. |
| `Asr.AsrProcessor.constructor` | server/app/asr.py:21-27 | A new processor has an empty buffer and a zero chunk count. |
| `Asr.AsrProcessor.PushAudioChunk` | server/app/asr.py:29-61 | The new (buffer, count) and the returned events are those of `Step` on the old state. The call returns no event for an empty chunk and exactly one for any other chunk. |
| `Asr.AsrProcessor.TranscribeBuffer` | server/app/asr.py:128-157 | The new buffer and the events are those of `Flush` on the old buffer. The chunk count does not change. |
| `Asr.EmptyChunkIsIgnored` | server/app/asr.py:35-37 | An empty chunk leaves the buffer and the count unchanged and yields no event. |
| `Asr.NonEmptyChunkCountedOnce` | server/app/asr.py:39-57 | A non-empty chunk raises the count by exactly one, whatever decoding gives, and yields exactly one event. |
| `Asr.DecodeFailureKeepsBuffer` | server/app/asr.py:45-57 | When decoding fails, the buffer is kept and the single event is interim "Processing audio...". |
| `Asr.BelowThresholdAppends` | server/app/asr.py:47-55 | The new buffer is the old buffer followed by the decoded samples, in order. Below 80 000 samples the event is interim "Listening... (N chunks)", with N the updated count. |
| `Asr.ThresholdTranscribesWholeBuffer` | server/app/asr.py:137-157 | At or above the threshold the transcriber receives the entire untrimmed buffer. When it returns, the buffer empties, and the event is final (with the stripped text) iff that text is non-empty, otherwise interim "No speech detected". When it raises, the buffer is kept and the error text is cut to 50 characters. |
| `Asr.OneEventPerNonEmptyChunk` | server/app/asr.py:34-61 | Over any stream, the number of events and the growth of the chunk count both equal the number of non-empty chunks. |
| `Asr.NoFinalWithoutSpeech` | server/app/asr.py:144-153 | If the transcriber never returns non-blank text, no event of any stream is final. |
| `Asr.BufferStaysBelowThreshold` | server/app/asr.py:52-153 | While the transcriber never raises, the buffer is below 80 000 samples after every chunk. |
| `Asr.Int16Le` | server/app/asr.py:115 | A byte pair read as a signed little-endian 16-bit value lies in [-32768, 32768). |
| `Asr.PcmSamples` | server/app/asr.py:115 | An even-length byte string gives half as many samples, each a 16-bit value. |
| `Asr.DecodeInt16` | server/app/asr.py:115 | Decoding succeeds iff the length is even, and gives `len/2` samples. |
| `Asr.DecodeEncodeInt16` | server/app/asr.py:115 | Round trip: decoding the byte-pair encoding of 16-bit samples gives the samples back. |
| `Asr.EncodeDecodeInt16` | server/app/asr.py:115 | Round trip: every even-length byte string is the encoding of its decoded samples. |
| `IslTranslator.DurationOf` | server/app/isl_translator.py:25 | `e.get('duration', 1.0)`: the entry's duration, or 1.0 when it has none. A definition with no contract of its own. |
| `IslTranslator.Phrase` | server/app/isl_translator.py:20 | `' '.join(words[i:i+L])`: the L words from the cursor joined by single spaces. A definition with no contract of its own; `JoinedPhraseHasSpace` and `PyStr.SplitJoin` state its properties. |
| `IslTranslator.MatchFrom` | server/app/isl_translator.py:14-31 | Greedy matching from cursor `i`: the entries of the phrase `Longest` chooses, then matching after it; an unmatched word is skipped. It is a definition with no contract of its own; `MatchFromAt`, `SingleWordKeysMatchWordByWord` and `EntriesComeFromMapping` state its properties. |
| `IslTranslator.Elapsed` | server/app/isl_translator.py:25 | `sum(x.get('duration', 1.0) for x in seq)`: the sum of the durations emitted so far. It is a definition with no contract of its own; `ElapsedGrows` states its monotonicity. |
| `IslTranslator.Longest` | server/app/isl_translator.py:18-21 | The chosen phrase length is 1 to 3, fits in the remaining words, and names a mapping key. No longer length that fits names a key. |
| `IslTranslator.AppendEntries` | server/app/isl_translator.py:22-25 | The output gains the phrase's entries in order, each with its sign and its duration (default 1.0) and starting when the output so far ends. The earlier output is unchanged. |
| `IslTranslator.Translate` | server/app/isl_translator.py:9-13 | The output carries exactly the entries that greedy 3/2/1-word matching collects from the lower-cased, split text. Each `start` is the sum of the durations before it. |
| `IslTranslator.TranslateWords` | server/app/isl_translator.py:14-32 | The cursor loop emits exactly the entries of `MatchFrom` from the first word, in order and scheduled back to back. A word that starts no known phrase adds nothing. |
| `IslTranslator.TryPhrases` | server/app/isl_translator.py:18-28 | A phrase matches at the cursor iff `Longest` finds one. On a match, the cursor moves past the longest matching phrase and that phrase's entries are appended, scheduled. Without a match, the output and the cursor stay as they were. |
| `IslTranslator.MatchFromAt` | server/app/isl_translator.py:15-31 | One step of greedy matching: a matched phrase contributes its entries and the matching goes on after it; an unmatched word is skipped. |
| `IslTranslator.BlankTextTranslatesToNothing` | server/app/isl_translator.py:10-15 | Empty or all-whitespace text yields no signs. |
| `IslTranslator.JoinedPhraseHasSpace` | server/app/isl_translator.py:20 | A phrase of two or more words, re-joined with single spaces, contains a space. |
| `IslTranslator.SingleWordKeysMatchWordByWord` | server/app/isl_translator.py:15-31 | When no mapping key contains a space, greedy matching equals looking each word up on its own. |
| `IslTranslator.EntriesComeFromMapping` | server/app/isl_translator.py:21-23 | Every emitted entry is an entry of some mapping key. |
| `IslTranslator.ElapsedGrows` | server/app/isl_translator.py:25 | With non-negative durations, the time taken by a prefix of the output is at most that of the whole. |
| `IslTranslator.StartsNonDecreasing` | server/app/isl_translator.py:25 | With non-negative durations, start times never decrease along the output. |
| `IslTranslator.AppendKeepsSchedule` | server/app/isl_translator.py:25 | Appending an entry that starts at the elapsed time keeps the output scheduled and carrying its entries. |
| `LetterSignGif.IsImageFile` | server/app/letter_sign_gif_generator.py:42-45 | The lower-cased file name ends with one of .png, .jpg, .jpeg, .gif, .bmp. A definition with no contract of its own. |
| `LetterSignGif.LetterKey` | server/app/letter_sign_gif_generator.py:47 | The upper-cased text before the first '.' of the file name. A definition with no contract of its own; `PyStr.BeforeFirst` and `PyStr.Upper` state its parts. |
| `LetterSignGif.LetterIndex` | server/app/letter_sign_gif_generator.py:33-54 | The table the scan builds: every image file registers its key with the path joined to the directory, later files overwriting earlier ones. A definition with no contract of its own; `LetterIndexKeys` and `LetterIndexLastWins` state its properties. |
| `LetterSignGif.ScanLetterImages` | server/app/letter_sign_gif_generator.py:33-54 | The table built from a listing is `LetterIndex` of that listing, file by file in order. |
| `LetterSignGif.LetterIndexKeys` | server/app/letter_sign_gif_generator.py:42-50 | A key is registered iff some file has an image extension (case-insensitive) and its upper-cased text before the first '.' is that key. |
| `LetterSignGif.LetterIndexLastWins` | server/app/letter_sign_gif_generator.py:44-50 | The path registered for a key is that of the last file in the listing standing for it. |
| `LetterSignGif.Place` | server/app/letter_sign_gif_generator.py:188-211 | The copied region lies inside the 600×400 frame and is no larger than the image, so both slices match in size. An image that fits is copied whole and centred, with the margins differing by at most one pixel. An image that does not fit is clipped from its top-left corner. |
| `LetterSignGif.LetterBlock` | server/app/letter_sign_gif_generator.py:112-150 | The frames one letter contributes: `frames_per_letter` blank frames for a space, none for a letter without a path or whose image fails to load, and placed image frames otherwise. A definition with no contract of its own; `FrameCount` states the sizes. |
| `LetterSignGif.PlannedFrames` | server/app/letter_sign_gif_generator.py:112-150 | The letters' blocks concatenated in letter order. A definition with no contract of its own; `FrameCount`, `ShortDurationMakesNoFrames` and `CreateLetterGif` state its properties. |
| `LetterSignGif.FramesPerLetter` | server/app/letter_sign_gif_generator.py:110 | `int(duration_per_letter * fps)` with fps 10, truncating toward zero. A definition with no contract of its own; `ShortDurationMakesNoFrames` states a consequence. |
| `LetterSignGif.Repeat` | server/app/letter_sign_gif_generator.py:117-118 | n copies of a frame. |
| `LetterSignGif.AppendCopies` | server/app/letter_sign_gif_generator.py:143-144 | `frames_per_letter` copies of the frame are appended, and none when that number is not positive. |
| `LetterSignGif.FrameCount` | server/app/letter_sign_gif_generator.py:112-150 | Number of frames = `frames_per_letter` × (spaces + letters with a path whose image loads). Other letters add nothing. |
| `LetterSignGif.ShortDurationMakesNoFrames` | server/app/letter_sign_gif_generator.py:110 | A duration per letter under 0.1 s truncates to no frame per letter, so no frames at all. |
| `LetterSignGif.BlankTextMakesNoFrames` | server/app/letter_sign_gif_generator.py:68-85 | Empty or all-whitespace text passes validation but makes no frame, which ends in "Failed to create GIF". |
| `LetterSignGif.GifText` | server/app/letter_sign_gif_generator.py:68 | `text.upper().strip()`. A definition with no contract of its own; `BlankTextMakesNoFrames` states its blank case. |
| `LetterSignGif.MissingList` | server/app/letter_sign_gif_generator.py:77 | `', '.join(missing_letters)`: the missing characters as one-character strings joined by ", ". A definition with no contract of its own. |
| `LetterSignGif.SpokenDuration` | server/app/letter_sign_gif_generator.py:95 | The number of non-space characters times the duration per letter. A definition with no contract of its own; `TextToGif` returns it as the duration. |
| `LetterSignGif.MissingLetters` | server/app/letter_sign_gif_generator.py:72 | Every reported character is a non-space character of the text without an image. Every such character of the text is reported. |
| `LetterSignGif.ValidatedLettersHavePaths` | server/app/letter_sign_gif_generator.py:72-82 | After validation passes, every non-space character has a registered path. |
| `LetterSignGif.ImageFiles` | server/app/letter_sign_gif_generator.py:260-267 | The copied names are exactly the image files of the source listing. |
| `LetterSignGif.LetterSignGifGenerator.constructor` | server/app/letter_sign_gif_generator.py:18-28 | The table is the scan of the letter directory's listing. |
| `LetterSignGif.LetterSignGifGenerator.CreateLetterGif` | server/app/letter_sign_gif_generator.py:102-164 | The frames are the planned ones, letter by letter: blank frames for a space, nothing for a letter without a path or whose image fails to load, and placed image frames otherwise. A path in the output directory is returned iff there is a frame. |
| `LetterSignGif.LetterSignGifGenerator.TextToGif` | server/app/letter_sign_gif_generator.py:56-100 | The text is upper-cased and stripped. If any letter is missing, the result is an error listing the missing letters joined by ", ", with the sorted keys, and no GIF is attempted. "Failed to create GIF" is returned iff there are no frames. Otherwise the result carries the path, its base name, the text, and duration = non-space characters × duration per letter. |
| `LetterSignGif.LetterSignGifGenerator.GetAvailableLetters` | server/app/letter_sign_gif_generator.py:245-251 | Returns the keys sorted, each once, with their count and the directory. |
| `LetterSignGif.LetterSignGifGenerator.UploadLetterImages` | server/app/letter_sign_gif_generator.py:253-282 | A missing source directory gives "Directory not found: ..." and leaves the table alone. Otherwise the image files are reported as copied, the table becomes the rescan, and its size is reported. |
| `SignGif.Steps` | server/app/sign_gif_generator.py:110-211 | The `range` bound of each of the twelve generator loops: 15, 15, 10, 12, 10, 10, 12, 12, 12, 12, 10, 12. A table with no contract of its own; `DatabasePosesHaveTenPositions` uses it. |
| `SignGif.Path` | server/app/sign_gif_generator.py:107-215 | A gesture's path has one position per loop step, in step order. |
| `SignGif.GeneratePositions` | server/app/sign_gif_generator.py:107-215 | Each generator's loop yields `Steps(g)` positions (15, 15, 10, 12, 10, 10, 12, 12, 12, 12, 10, 12), in step order. |
| `SignGif.DatabaseOf` | server/app/sign_gif_generator.py:28-104 | The 15-entry dictionary literal of `_load_sign_poses`: each word with its declared frames, the list of its generator and its description. A definition with no contract of its own; `LoadSignPoses` states that the generated lists give `Database()`. |
| `SignGif.Database` | server/app/sign_gif_generator.py:28-104 | The 15-entry dictionary literal, filled with the positions of the twelve generators. A definition with no contract of its own; `LoadSignPoses`, `DatabasePosesHaveTenPositions` and `StopwordsAreNotSigns` state its properties. |
| `SignGif.LoadSignPoses` | server/app/sign_gif_generator.py:26-104 | The database is the 15-entry table: word, declared frames, gesture positions and description. |
| `SignGif.DatabasePosesHaveTenPositions` | server/app/sign_gif_generator.py:28-104 | Every pose in the database has at least ten hand positions. |
| `SignGif.DeclaredFramesAreNotDrawn` | server/app/sign_gif_generator.py:34-36 | "hi" declares 12 frames but carries the wave's 15 positions. `_create_gif` draws the positions and never reads `frames`. |
| `SignGif.CleanWord` | server/app/sign_gif_generator.py:258 | `word.strip('.,!?;:\'"')`, which is `PyStr.Strip` with those eight characters. A definition with no contract of its own; `PunctuationWordGivesEmptySign` states its all-punctuation case. |
| `SignGif.KeptSigns` | server/app/sign_gif_generator.py:257-270 | Never more signs than words. Every sign is a database word or not a stopword. |
| `SignGif.StopwordsAreNotSigns` | server/app/sign_gif_generator.py:265 | None of the nine stopwords is a database word. |
| `SignGif.KeptSignsDropOnlyStopwords` | server/app/sign_gif_generator.py:257-268 | With the built-in database, the signs are the cleaned words, in order, minus the stopwords. |
| `SignGif.PunctuationWordGivesEmptySign` | server/app/sign_gif_generator.py:258-268 | A word made only of punctuation becomes an empty sign that is still emitted. |
| `SignGif.PoseFor` | server/app/sign_gif_generator.py:289-293 | The pose of a database word, otherwise the default pose of ten rest positions described by the word itself. A definition with no contract of its own; `AtLeastTenFramesPerSign` uses it. |
| `SignGif.SignBlock` | server/app/sign_gif_generator.py:298-321 | A sign contributes one frame per hand position of its pose. |
| `SignGif.PlannedFrames` | server/app/sign_gif_generator.py:288-321 | The signs' blocks concatenated in sign order. A definition with no contract of its own; `FrameCount` and `SignsAlwaysGiveFrames` state its properties. |
| `SignGif.TotalPositions` | server/app/sign_gif_generator.py:288-321 | The sum of the signs' position counts. A definition with no contract of its own; `FrameCount` ties it to the frames. |
| `SignGif.FrameCount` | server/app/sign_gif_generator.py:288-321 | Number of frames = sum over the signs of their position counts, using 10 for unknown words. |
| `SignGif.AtLeastTenFramesPerSign` | server/app/sign_gif_generator.py:289-293 | With the built-in database, every sign gives at least ten frames. |
| `SignGif.SignsAlwaysGiveFrames` | server/app/sign_gif_generator.py:324-329 | A non-empty sign list always yields frames. |
| `SignGif.SignLanguageGifGenerator.constructor` | server/app/sign_gif_generator.py:17-24 | The database is the built-in table. |
| `SignGif.SignLanguageGifGenerator.TextToSigns` | server/app/sign_gif_generator.py:251-274 | The loop collects `KeptSigns` of the lower-cased, split words. |
| `SignGif.SignLanguageGifGenerator.CreateGif` | server/app/sign_gif_generator.py:276-333 | The frames are planned sign by sign and position by position, each labelled with its sign, description and counter. A path under /tmp is returned iff there is a frame. |
| `SignGif.SignLanguageGifGenerator.TextToGif` | server/app/sign_gif_generator.py:217-249 | No signs gives "No signs found for text", and no frames gives "Failed to create GIF". Otherwise the result carries the path, its base name, the text, the signs and duration = number of signs × 1.0. With the built-in database a GIF is made iff some sign survives, so "Failed to create GIF" cannot occur. |
| `PyStr.Join` | server/app/isl_translator.py:20 | `sep.join(words)`. A definition with no contract of its own; `SplitJoin` and `JoinedPhraseHasSpace` state its properties. |
| `PyStr.StripSpace` | server/app/asr.py:144 | `strip()` with no argument: `Strip` over Python's whitespace set. A definition with no contract of its own. |
| `PyStr.EndsWith` | server/app/letter_sign_gif_generator.py:45 | `s.endswith(suffix)`. A definition with no contract of its own. |
| `PyStr.JoinPath` | server/app/letter_sign_gif_generator.py:49 | `os.path.join(dir, name)`: an absolute name replaces the directory; otherwise the name is appended after a '/' unless the directory is empty or already ends with one. A definition with no contract of its own; `BaseNameOfJoin` states its round trip. |
| `PyStr.Lower` | server/app/isl_translator.py:10 | `lower()`: same length, each ASCII capital lowered, everything else kept. |
| `PyStr.Upper` | server/app/letter_sign_gif_generator.py:68 | `upper()`: same length, each ASCII small letter raised, everything else kept. |
| `PyStr.CaseKeepsSpace` | server/app/letter_sign_gif_generator.py:68 | Case mapping never turns whitespace into non-whitespace or back. |
| `PyStr.Split` | server/app/isl_translator.py:13 | `split()` yields non-empty words free of whitespace. |
| `PyStr.SplitEmptyIffBlank` | server/app/isl_translator.py:13 | `split()` yields nothing iff the text is empty or all whitespace. |
| `PyStr.SplitJoin` | server/app/isl_translator.py:20 | Round trip: splitting words joined with single spaces gives the words back. |
| `PyStr.Strip` | server/app/sign_gif_generator.py:258 | `strip(chars)` is the slice left after removing every leading and every trailing character in `chars`. The result neither starts nor ends with one. |
| `PyStr.StripEmptyIff` | server/app/asr.py:144 | Stripping leaves nothing iff every character is one of those stripped. |
| `PyStr.Prefix` | server/app/asr.py:157 | `s[:n]` is the first min(n, len s) characters of `s`. |
| `PyStr.BeforeFirst` | server/app/letter_sign_gif_generator.py:47 | `split('.')[0]` is the longest prefix without '.', followed by '.' or the end. |
| `PyStr.NatToString` | server/app/asr.py:55 | `str(n)` is decimal digits with no leading zero (just "0" for zero). |
| `PyStr.DecimalRoundTrip` | server/app/asr.py:55 | Round trip: reading back the decimal text of a count gives the count. |
| `PyStr.BaseName` | server/app/letter_sign_gif_generator.py:92 | `basename(p)` is the slash-free suffix after the last '/'. |
| `PyStr.BaseNameOfJoin` | server/app/letter_sign_gif_generator.py:92 | The base name of `join(dir, name)` is `name` when the name has no '/'. |
| `StrOrder.SortedStrings` | server/app/letter_sign_gif_generator.py:78 | `sorted(keys)`: strictly ascending, with exactly the keys, as many as there are keys and no string twice. |
| `StrOrder.Less` | server/app/letter_sign_gif_generator.py:78 | Python's `<` on strings: code point by code point, a proper prefix first. A definition with no contract of its own; the lemmas below state its order properties. |
| `StrOrder.StrictlySortedDistinct` | server/app/letter_sign_gif_generator.py:78 | A strictly ascending list holds no string twice, because no string is less than itself. |
| `StrOrder.LessTotal` | server/app/letter_sign_gif_generator.py:78 | Python's string order is total on distinct strings. |
| `StrOrder.LessTransitive` | server/app/letter_sign_gif_generator.py:78 | Python's string order is transitive. |
| `StrOrder.LeastExists` | server/app/letter_sign_gif_generator.py:78 | Every non-empty finite set of strings has a least element. |

## Left out

- `server/app/main.py` (HTTP and WebSocket transport, CORS, health endpoint) is not part of this model. Its `/transcribe` route calls an `ASR.transcribe_all` that `asr.py` does not define.
- The ffmpeg subprocess, temporary files and their timeout (`server/app/asr.py:66-99`) are replaced by the decode parameter.
- Whisper loading and inference, and the SSL override, are replaced by the transcribe parameter. The transcriber returns text or raises.
- The outer handler of `push_audio_chunk_and_get_events` (`server/app/asr.py:59-61`) is not modelled. Decoding and transcription catch their own exceptions, so in the model nothing reaches it.
- The WAV header parsing, the /32768 float normalisation and librosa resampling (`server/app/asr.py:104-121`) are not modelled. Samples are integers; only the int16 byte-pair decode is.
- The sin/cos coordinates of the hand positions are not modelled. A position records its gesture and step.
- Image decoding, the aspect-ratio resize, cv2/PIL drawing, the progress bar and GIF encoding are not modelled. An image load is a parameter giving the resized size or None; only frame plans and offsets are modelled.
- A failure while writing the GIF, which makes `_create_letter_gif` and `_create_gif` return None, is not modelled.
- The missing-directory branch of `_scan_letter_images` is not modelled. The constructor creates the directory, so a listing is always given.
- `upload_letter_images` is modelled without the file copies (`shutil.copy2`). The letter directory's listing after the copy is a parameter.
- The "unexpected exception" handlers of `text_to_gif`, `_text_to_signs` and `upload_letter_images` are not modelled.
- Time-stamped file names (`datetime.now`) are a parameter. Logging is left out.
- `async`/`await` is left out: the calls are sequential, so the model uses ordinary methods.
- `lower()`/`upper()` map only ASCII letters. `split()`/`strip()` use Python's full whitespace set.
- `ISLTranslator.__init__` (JSON loading) is left out. The mapping is a parameter of `Translate`.
- `FramesPerLetter` and `SpokenDuration` compute on exact reals, while the code multiplies Python floats (`server/app/letter_sign_gif_generator.py:95`, `:110`). Float rounding is not captured: the float nearest 0.3 is slightly below 0.3, yet `0.3 * 10` rounds to exactly 3.0 and gives 3 frames, while the exact product of that float's value truncates to 2. The two agree for durations given as exact decimals, which is how the model reads them.
- `Translate` takes typed mapping entries that always carry a sign. The `KeyError` the code raises for an entry without "sign" (`server/app/isl_translator.py:25`) is not modelled.
