# English learning app: the game state machine and the live conversation

A Dafny model of the two stateful components of a small English-learning web
app.

- **The vocabulary game** (`components/EnglishLearningGame.tsx`). It has a
  ten-level table, five word scrambles then five fill-in-the-blank sentences.
  The reducer `gameReducer` works over `{levelIndex, score, lives}`: a right
  answer scores 100 and a wrong one costs a life, floored at zero. A life can
  be bought for 200 points up to three lives, and `RESET` restores
  `{0, 0, 3}`. Around the reducer sit the handlers. `handleSubmit` checks the
  answer: scramble answers are compared case-insensitively without trimming,
  and sentence answers are compared case-insensitively after trimming.
  `handleNextLevel` advances only while a next level exists. A game-over timer
  dispatches `RESET`. A saved state is loaded only when its level index is
  below the table's length.
- **The live conversation** (`components/LiveConversation.tsx`). It is a voice
  session with status `idle`, `connecting`, `active` or `error`. It holds a
  bundle of resource slots: the session, the microphone stream, two audio
  contexts, a script processor and a stream source node. `cleanup` gives every
  held resource back. Incoming messages carry transcription fragments, which
  are joined in two buffers and moved into the transcript, trimmed, when a turn
  completes. They also carry audio chunks. Each chunk is decoded from its
  binary string into bytes, read as 16-bit little-endian PCM, and started at a
  playback cursor. The cursor then moves past the chunk, so chunks play back
  to back.

Modules:

- `Wrappers` (`wrappers.dfy`): `Option` and `Result`.
- `Types` (`types.dfy`): the level and transcript records of `types.ts`.
- `Text` (`text.dfy`): JavaScript's `trim`, with the ECMAScript whitespace
  set, and `toUpperCase`/`toLowerCase`.
- `EnglishLearningGame` (`game.dfy`): the level table, the reducer as a
  function with lemmas over action sequences, the answer check, and the
  component as a class whose methods are its handlers.
- `AudioCodec` (`codec.dfy`): the loops on either side of base64 (section 4
  of RFC 4648), the `Int16Array` view, and `decodeAudioData`'s nested loop
  over an `array2`.
- `LiveConversation` (`live.dfy`): the component as a class. Its fields are
  the status, the error message, the transcript, the two buffers, the cursor,
  the playing sources and the resource slots. It also has two logs: the
  buffers started on the current output context (`scheduled`) and every
  release call made so far (`released`).

Time is `real` seconds. The output context's clock is a parameter (`now`),
and how session setup ends is a parameter (`StartOutcome`). Audio sources are
told apart by creation order (`SourceId`). The playing `Set` is a sequence
without duplicates, because a JavaScript `Set` iterates in insertion order and
`cleanup` stops the sources in that order.

## Model

| member | source | states |
|---|---|---|
| Text.IsWhitespace | components/LiveConversation.tsx:160-161 | The whitespace `trim` strips never includes a digit or an ASCII letter. |
| Text.Trim | components/LiveConversation.tsx:160-161 | `trim` returns no longer a string, with no whitespace at either end. |
| Text.TrimKeepsMiddle | components/LiveConversation.tsx:160-161 | What `trim` keeps is one contiguous piece of the input, with only whitespace before and after it. |
| Text.TrimKeepsUnpadded | components/LiveConversation.tsx:160-161 | A string with no whitespace at its ends is its own trim. |
| Text.TrimIgnoresPadding | components/EnglishLearningGame.tsx:116 | Trimming ignores any whitespace padding on either side. |
| Text.ToUpper | components/EnglishLearningGame.tsx:114 | `toUpperCase` keeps the length, leaves no lower-case ASCII letter, and keeps every character's letter: position by position, the result lower-cases to what the input lower-cases to. |
| Text.ToLower | components/EnglishLearningGame.tsx:116 | `toLowerCase` keeps the length, leaves no upper-case ASCII letter, and position by position the result upper-cases to what the input upper-cases to. |
| Text.UpperEqualIff | components/EnglishLearningGame.tsx:114 | Two strings are equal after `toUpperCase` exactly when they have the same length and agree position by position up to letter case. |
| Text.LowerEqualIff | components/EnglishLearningGame.tsx:116 | Two strings are equal after `toLowerCase` exactly when they have the same length and agree position by position up to letter case. |
| Text.UpperIdempotent | components/EnglishLearningGame.tsx:114 | Upper-casing an upper-cased string changes nothing. |
| Text.LowerIdempotent | components/EnglishLearningGame.tsx:116 | Lower-casing a lower-cased string changes nothing. |
| Text.LowerOfUpper | components/EnglishLearningGame.tsx:113-117 | Lower-casing after upper-casing gives the same string as lower-casing alone. |
| Text.CaseKeepsNonLetters | components/EnglishLearningGame.tsx:113-117 | A character that is not an ASCII letter comes through both case mappings unchanged. |
| Text.FoldingsAgree | components/EnglishLearningGame.tsx:113-117 | Two strings are equal after lower-casing exactly when they are equal after upper-casing. |
| Text.TrimCommutesWithLower | components/EnglishLearningGame.tsx:116 | Trimming then lower-casing equals lower-casing then trimming. |
| EnglishLearningGame.Reduce | components/EnglishLearningGame.tsx:37-57 | Every action except `LOAD_STATE` preserves the invariant: lives in 0..3 and score a non-negative multiple of 100. `BUY_LIFE` changes the state exactly when its guard holds. Only `NEXT_LEVEL`, `RESET` and `LOAD_STATE` move the level index. |
| EnglishLearningGame.CorrectAnswerScores | components/EnglishLearningGame.tsx:39-40 | `CORRECT_ANSWER` adds exactly 100 to the score and changes neither the level nor the lives. |
| EnglishLearningGame.IncorrectAnswerCostsALife | components/EnglishLearningGame.tsx:41-42 | `INCORRECT_ANSWER` takes one life, never going below zero, and leaves the score and level alone. |
| EnglishLearningGame.BuyLifeTrades | components/EnglishLearningGame.tsx:45-49 | `BUY_LIFE` trades 200 points for a life when the score is at least 200 and lives are below 3. Otherwise it returns the state unchanged. |
| EnglishLearningGame.ResetRestartsAndIsIdempotent | components/EnglishLearningGame.tsx:50-51 | `RESET` yields `{0, 0, 3}` from any state, and a second `RESET` changes nothing. |
| EnglishLearningGame.RunKeepsInvariant | components/EnglishLearningGame.tsx:37-57 | Any sequence of actions without `LOAD_STATE`, from a state satisfying the invariant, ends in a state satisfying it. |
| EnglishLearningGame.ReachableStatesAreValid | components/EnglishLearningGame.tsx:35-57 | From `initialState`, every sequence of actions without `LOAD_STATE` ends with lives in 0..3 and the score a non-negative multiple of 100. |
| EnglishLearningGame.CanAdvance | components/EnglishLearningGame.tsx:103 | From a level in the table, the guard of `handleNextLevel` holds exactly when `NEXT_LEVEL` would land on a level still in the table. |
| EnglishLearningGame.GuardedRunStaysInRange | components/EnglishLearningGame.tsx:102-109 | If `NEXT_LEVEL` goes out only under the `handleNextLevel` guard and nothing is loaded, the level index stays a valid index into the 10-level table. |
| EnglishLearningGame.IsCorrect | components/EnglishLearningGame.tsx:111-117 | A scramble answer is right exactly when it matches the word up to letter case, untrimmed. A sentence answer is right exactly when its trimmed form matches the expected answer up to letter case. |
| EnglishLearningGame.CheckIgnoresCase | components/EnglishLearningGame.tsx:113-117 | Answers that differ only in letter case get the same verdict at every level. |
| EnglishLearningGame.SentenceIgnoresPadding | components/EnglishLearningGame.tsx:116 | A sentence answer gets the same verdict with or without whitespace padding. |
| EnglishLearningGame.ScrambleRejectsPadding | components/EnglishLearningGame.tsx:114 | Scramble answers are not trimmed: padding an accepted answer makes it wrong. |
| EnglishLearningGame.ScrambleExample | components/EnglishLearningGame.tsx:113-117 | Level 1 accepts "apple" and rejects " apple". |
| EnglishLearningGame.SentenceExample | components/EnglishLearningGame.tsx:113-117 | Level 6 accepts " Went ". |
| EnglishLearningGame.ShouldLoad | components/EnglishLearningGame.tsx:76-80 | A saved state is accepted exactly when its level index is below 10. A negative index is accepted too. |
| EnglishLearningGame.GameComponent.constructor | components/EnglishLearningGame.tsx:60-64 | The component starts at `{0, 0, 3}` with an empty answer, no feedback, hint hidden and the level not complete. |
| EnglishLearningGame.GameComponent.Dispatch | components/EnglishLearningGame.tsx:60 | The new state is the reducer applied to the old state and the action. |
| EnglishLearningGame.GameComponent.ResetLevelState | components/EnglishLearningGame.tsx:95-100 | `resetLevelState` clears the answer, the feedback, the hint and the completion flag. |
| EnglishLearningGame.GameComponent.LoadSaved | components/EnglishLearningGame.tsx:73-85 | A saved state replaces the state only when present and accepted by the guard. |
| EnglishLearningGame.GameComponent.SetAnswer | components/EnglishLearningGame.tsx:183-189 | Typing replaces the current answer. |
| EnglishLearningGame.GameComponent.Submit | components/EnglishLearningGame.tsx:111-134 | On submit, the state is the reducer's result for the verdict, and the feedback is "Correct!", "Not quite" or "Game Over" as the verdict and the lives seen require. The level is marked complete on a right answer. A game-over timer is started exactly when a wrong answer is given with at most one life. The level index never moves, and the invariant is kept. |
| EnglishLearningGame.GameComponent.GameOverTimerFires | components/EnglishLearningGame.tsx:128-131 | When the timer fires, the game restarts at `{0, 0, 3}` with the level state cleared. |
| EnglishLearningGame.GameComponent.AdvanceLevel | components/EnglishLearningGame.tsx:102-109 | Below the last level, `handleNextLevel` advances and clears the level state. At the last level it only shows the completion message. Either way the level index stays in range. |
| EnglishLearningGame.GameComponent.PurchaseLife | components/EnglishLearningGame.tsx:276 | The "Buy Life" button dispatches `BUY_LIFE`. |
| EnglishLearningGame.GameComponent.PlayAgain | components/EnglishLearningGame.tsx:221 | "Play Again" restarts at `{0, 0, 3}` and clears the level state. |
| AudioCodec.BytesOf | components/LiveConversation.tsx:7-15 | `decode` gives one byte per character, equal to the character code when the string is binary. |
| AudioCodec.BinaryOf | components/LiveConversation.tsx:35-42 | `encode` builds a binary string with one character per byte. |
| AudioCodec.Decode | components/LiveConversation.tsx:7-15 | The loop of `decode` fills an array as long as the string, with byte i equal to the code at i modulo 256. |
| AudioCodec.EncodeBinary | components/LiveConversation.tsx:35-42 | The loop of `encode` builds one character per byte, in order. |
| AudioCodec.BytesRoundTrip | components/LiveConversation.tsx:7-42 | Decoding what was encoded gives back the bytes. |
| AudioCodec.BinaryRoundTrip | components/LiveConversation.tsx:7-42 | Encoding what was decoded gives back any binary string. |
| AudioCodec.EncodeThenDecode | components/LiveConversation.tsx:7-42 | The two loops composed return an array with the same contents. |
| AudioCodec.Int16SplitRoundTrip | components/LiveConversation.tsx:23 | A 16-bit sample split into its two little-endian bytes reads back as the same sample. |
| AudioCodec.Int16At | components/LiveConversation.tsx:23 | A sample read from two little-endian bytes is their value `lo + 256 * hi` taken modulo 65536 as a signed 16-bit number, negative exactly when the high byte's top bit is set. |
| AudioCodec.Int16View | components/LiveConversation.tsx:23 | `new Int16Array` succeeds exactly on an even byte length, giving half as many samples. |
| AudioCodec.Int16Bytes | components/LiveConversation.tsx:140 | The capture side's byte view has two bytes per sample. |
| AudioCodec.Int16RoundTrip | components/LiveConversation.tsx:136-140 | Captured samples, read back through the playback view, are unchanged. |
| AudioCodec.InterleavedIndexInBounds | components/LiveConversation.tsx:23-29 | Every read `i * numChannels + channel` of a whole frame, one below `length / numChannels` rounded down, is within the sample data. |
| AudioCodec.EverySampleIsRead | components/LiveConversation.tsx:24-29 | When the channel count divides the sample count, every sample `k` is read by exactly one (frame, channel) pair: frame `k / numChannels`, an existing frame, of channel `k % numChannels`. |
| AudioCodec.OnlyOnePairReads | components/LiveConversation.tsx:26-29 | No two (frame, channel) pairs of the loop read the same sample index. |
| AudioCodec.FrameAndChannelAreUnique | components/LiveConversation.tsx:26-29 | The sample read for frame `i` of `channel` is read for no other pair: dividing its index by the channel count gives back `i` and `channel`. |
| AudioCodec.FrameCount | components/LiveConversation.tsx:24-25 | The frame count `createBuffer` allocates is the largest whole number of frames the samples fill, and 0 with no channels. |
| AudioCodec.ChannelSample | components/LiveConversation.tsx:29 | Every value written into a channel lies in [-1, 1). |
| AudioCodec.DecodeAudioData | components/LiveConversation.tsx:17-33 | An odd byte length fails with the `Int16Array` error, and zero frames or channels fail with the `createBuffer` error. Otherwise the buffer has `numChannels` rows of `length / numChannels` frames, and entry (c, i) is sample `i * numChannels + c` over 32768. |
| AudioCodec.Duration | components/LiveConversation.tsx:187 | A buffer's duration times its sample rate is its frame count, and it is positive when there are frames. |
| LiveConversation.Max | components/LiveConversation.tsx:180 | `Math.max` is an upper bound equal to one of its arguments. |
| LiveConversation.FragmentText | components/LiveConversation.tsx:154-157 | A fragment appends its text, or "undefined" when its text is missing. |
| LiveConversation.Accumulate | components/LiveConversation.tsx:153-158 | A fragment's text is appended to its buffer, and the buffer is unchanged without one. |
| LiveConversation.AccumulateAll | components/LiveConversation.tsx:153-158 | Accumulating a run of transcriptions one after the other appends all their fragments, in arrival order, and nothing else. |
| LiveConversation.ReceiveFragments | components/LiveConversation.tsx:152-158 | After any number of messages that do not complete a turn, each buffer is its old contents followed by that side's fragments in order. The transcript is untouched. |
| LiveConversation.TurnEntries | components/LiveConversation.tsx:159-169 | A completed turn adds one entry per non-empty trimmed buffer. Every entry is non-empty. The user's entry is the trimmed input and comes first, and the model's entry is the trimmed output and comes last. |
| LiveConversation.EntriesOf | components/LiveConversation.tsx:163-169 | The entries pushed for the trimmed texts: the user's first, the model's last, each only when non-empty. |
| LiveConversation.TwoSpeakerTurn | components/LiveConversation.tsx:159-174 | A turn with "hello" in and "hi there" out adds the user's line, then the model's. |
| LiveConversation.ModelOnlyTurn | components/LiveConversation.tsx:159-174 | A turn with nothing heard from the user adds only the model's line. |
| LiveConversation.Without | components/LiveConversation.tsx:185 | `Set.delete` removes exactly the given source and keeps the set free of duplicates. |
| LiveConversation.BackToBackNeverOverlaps | components/LiveConversation.tsx:180-187 | No two buffers started on one output context overlap, whether consecutive or not. |
| LiveConversation.StopAllStopsEach | components/LiveConversation.tsx:74 | `cleanup` stops each playing source exactly once, in the set's order, and makes no other stop call. |
| LiveConversation.SlotReleasesFollowHeld | components/LiveConversation.tsx:76-96 | `cleanup` makes one release call per held resource and none for an empty slot or a closed context. Nothing is released exactly when nothing is held. The processor is disconnected first and the session closed last. |
| LiveConversation.DecodePayload | components/LiveConversation.tsx:181 | Decoding a payload and building its mono 24 kHz buffer gives the frame count `PlaybackFrames` names, and `None` where either step throws. |
| LiveConversation.PlaybackFrames | components/LiveConversation.tsx:181 | A payload plays exactly when it decodes to an even, non-zero number of bytes, giving half as many frames. |
| LiveConversation.Conversation.constructor | components/LiveConversation.tsx:57-70 | The component starts idle, with no message, empty transcript and buffers, cursor 0, nothing held and nothing released. |
| LiveConversation.Conversation.Cleanup | components/LiveConversation.tsx:72-97 | `cleanup` stops every playing source in order, then releases each held resource in the code's order, and logs exactly those calls. Afterwards nothing is held and no source plays. Contexts are closed, not dropped. On an already quiescent component it releases nothing and changes nothing, so a second call is a no-op. |
| LiveConversation.Conversation.StopPlayingSources | components/LiveConversation.tsx:74-75 | Each playing source is stopped, in the set's order, and the set is emptied. |
| LiveConversation.Conversation.ReleaseSlots | components/LiveConversation.tsx:76-96 | Each held slot is released once and emptied. Contexts already closed are not closed again. |
| LiveConversation.Conversation.StartSession | components/LiveConversation.tsx:99-209 | Starting clears the transcript and buffers. On a successful connection the status is `connecting`, with no message and nothing released. On a failure the status is `error` with the permission message, and `cleanup` has released the sources and, if obtained, the microphone. Context references are kept: a slot holds a context afterwards exactly when it held one before. |
| LiveConversation.Conversation.BeginAttempt | components/LiveConversation.tsx:100-104 | Starting sets `connecting`, clears the message and the transcript, and empties both buffers. |
| LiveConversation.Conversation.Connect | components/LiveConversation.tsx:107-111 | The microphone stream and the session are held. |
| LiveConversation.Conversation.FailAttempt | components/LiveConversation.tsx:203-208 | The catch block sets `error` and the permission message, and releases everything. Context references are kept: a slot holds a context afterwards exactly when it held one before. |
| LiveConversation.Conversation.OnOpen | components/LiveConversation.tsx:121-150 | `onopen` creates both contexts, resets the cursor to 0, wires the capture nodes and sets `active`, with every resource held. |
| LiveConversation.Conversation.OnMessage | components/LiveConversation.tsx:152-190 | A message's fragments join their buffers, including when it completes the turn. A completed turn appends its entries to the transcript and empties both buffers. Audio is handled when an output context exists. The cursor never decreases, and the component stays valid. |
| LiveConversation.Conversation.TakeTranscripts | components/LiveConversation.tsx:153-175 | The transcript only grows, by exactly the turn's entries, and only when the turn completes. |
| LiveConversation.Conversation.HandleAudio | components/LiveConversation.tsx:177-189 | Audio is played only with a payload and an output context. Otherwise the cursor, the sources and the log are unchanged. |
| LiveConversation.Conversation.PlayAudio | components/LiveConversation.tsx:178-189 | The cursor snaps to `max(cursor, now)`. A decodable chunk starts there as a new source, and the cursor becomes start plus duration. The source joins the playing set, and the scheduled buffers stay back to back. |
| LiveConversation.Conversation.StartSource | components/LiveConversation.tsx:182-187 | A buffer is started at the cursor as a new source, which joins the playing set. The cursor moves past it by its duration, and the scheduled buffers stay back to back. |
| LiveConversation.Conversation.OnSourceEnded | components/LiveConversation.tsx:185 | A source that ends leaves the playing set, and nothing else changes. |
| LiveConversation.Conversation.OnClose | components/LiveConversation.tsx:191-194 | `onclose` runs `cleanup` and sets `idle`. Context references are kept: a slot holds a context afterwards exactly when it held one before. |
| LiveConversation.Conversation.OnError | components/LiveConversation.tsx:195-200 | `onerror` sets the session error message, runs `cleanup` and sets `error`. Context references are kept: a slot holds a context afterwards exactly when it held one before. |
| LiveConversation.Conversation.StopSession | components/LiveConversation.tsx:211-214 | `stopSession` runs `cleanup` and sets `idle`. Context references are kept: a slot holds a context afterwards exactly when it held one before. |
| LiveConversation.Conversation.PressButton | components/LiveConversation.tsx:230-231 | The button stops an active session, does nothing while connecting, and starts a session otherwise. A stop logs `cleanup`'s releases and keeps the (closed) context references. It leaves the transcript, both buffers and the error message as they were. A start clears the transcript and both buffers. On a connection it shows no message, releases nothing and leaves the playing set alone. On a failure it shows the permission message, leaves nothing held, and logs the stopped sources plus, if obtained, the microphone. |
| LiveConversation.Conversation.Unmount | components/LiveConversation.tsx:216-218 | Unmounting runs `cleanup`. |
| LiveConversation.ActiveReleaseIsTotal | components/LiveConversation.tsx:72-97 | Cleaning up an active session releases every one of its six resources. |
| LiveConversation.StopTwice | components/LiveConversation.tsx:211-214 | A second stop releases nothing more. |
| LiveConversation.HelloScenario | components/LiveConversation.tsx:152-175 | Fragments "hel"/"lo" and "hi "/"there" over three messages give the user's "hello", then the model's "hi there". |
| LiveConversation.OpenScenario | components/LiveConversation.tsx:99-150 | Start, connect and open lead to `active` with everything held. |
| LiveConversation.TwoBuffersScenario | components/LiveConversation.tsx:177-189 | Two chunks on an open session become sources 0 and 1, the second starting where the first ends. |
| LiveConversation.StopWhilePlayingScenario | components/LiveConversation.tsx:74-75 | Stopping while two chunks play stops both, in order, and leaves none playing. |

## Left out

- `btoa` and `atob` themselves are not modelled. An audio payload is given as the binary string `atob` returns, or as malformed text that `atob` rejects. The capture side hands its bytes to `btoa` and is not modelled beyond the byte view.
- Float conversions are left out: capture's `* 32768` with its wrap-around, and the exact float result of `/ 32768.0`. The division is modelled over `real`, which is exact for 16-bit samples.
- Time is `real`, not a double. `AudioBuffer.duration`, the cursor and `Math.max` are exact.
- `Int16Array` uses the platform's byte order. The model assumes little-endian, as on every common browser platform.
- In `decodeAudioData`, when `length / numChannels` is not whole the loop runs one extra frame. That frame's reads past the end of the samples return `undefined`, which divides to `NaN`. Its writes fall outside the buffer and are ignored. The model reads and writes only the whole frames.
- `createBuffer` also rejects sample rates outside the supported range and very long buffers. The only call uses 24000 Hz, so these checks are left out.
- `AudioCodec.DecodeAudioData` succeeds for any positive channel count. `createBuffer` also throws above the platform's channel limit, which is at least 32. The only call passes 1 channel.
- `EnglishLearningGame.ShouldLoad` models the guard as written: it checks only the upper bound, so a saved negative level index is loaded.
- Case mapping covers ASCII letters only. `toUpperCase`/`toLowerCase` also map other scripts, and some characters change length. Scramble answers are typed only through the ASCII letter buttons. Under full Unicode mapping some pairs compare differently: U+212A (Kelvin sign) lower-cases to 'k' but upper-cases to itself, and 'ſ' upper-cases to 'S'. So `Text.FoldingsAgree` holds for the ASCII model and not for every JavaScript string. The same holds for these rows:
  - the length-keeping ensures of `Text.ToUpper` and `Text.ToLower`: 'ß' upper-cases to "SS", and 'İ' lower-cases to two code units;
  - `Text.CaseKeepsNonLetters`: 'é' upper-cases to 'É';
  - `Text.LowerOfUpper`, `Text.UpperEqualIff` and `Text.LowerEqualIff`, which rest on the same per-character maps.
- `localStorage`, `JSON.parse` and `JSON.stringify` are left out. A saved state arrives already parsed, or as `None` when absent or unreadable. The saving effect is left out.
- The "Learn with Gemini" request, the image editor, the tab switcher, all rendering, the hint toggle and the letter buttons are UI or network code.
- The microphone request, the session connection and audio hardware are parameters: `StartOutcome`, and `now` for the output context's clock. The script processor's capture callback (`onaudioprocess`) and the session's sends are left out. Only the callback's byte view is modelled, as `Int16Bytes`.
- `ConnectFailed` stands for a synchronous throw while creating the client or calling `connect`. A rejection of the promise `connect` returns is not caught by the code: the status stays `connecting`. The model does not cover that case.
- Each handler runs to completion, one at a time. Interleavings are not modelled: an `onmessage` suspended at its `await`, a `cleanup` arriving during setup, or an unmount mid-connection.
- `setTimeout`'s two-second delay is left out. The pending game-over timers are a counter, and each timer fires as a separate step.
- `Conversation.OnOpen` requires status `connecting`. The session opens only once, while setup is waiting for it.
- `Conversation.Cleanup` logs the session's `close()` at once. In the code that call runs only after the connect promise settles, so it can come after later handlers. An audio context's `close()` is not awaited either. Its state becomes `closed` at once, as in the model.
- The outgoing media blob `{ data, mimeType }` and its `sendRealtimeInput` call are left out entirely. So are the model name, voice and system instruction passed to `connect`.
