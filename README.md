# Home store of the conversational avatar front end

This project models the home store (`src/features/stores/home.ts`). The store is
a single record with two partitions:

- The persisted partition: `userOnboarded`, `chatLog` and `showIntroduction`.
- The transient partition: the chat-processing counter, the capture and webcam
  flags, and the Cubism core and Live2D loading flags, among others.

The model covers three behaviours and proves properties of each:

- **The chat-processing counter.** `incrementChatProcessingCount` and
  `decrementChatProcessingCount` change the count by exactly one. There is no
  lower bound.
- **The persistence projection `partialize`.** It selects what goes to durable
  storage: the chat log passed through the image-stripping selector, and the
  introduction flag.
- **The subscriber.** After every write it decides whether to ask the
  save-chat-log endpoint to store the log, and with which request body.

`home.dfy` (module `Home`) holds the state record `HomeState` and the writes the
store accepts (`Action`). It gives their effect as a pure function `Step`, plus
`Partialize` and the subscriber's guard, payload and decision. It also holds the
class `HomeStore`:

- The class has the store's fields.
- Each setter is a method with `modifies this`. Its `ensures` give the whole new
  state as a record update of the old one, and equal `Step` of the old state.
- `sent` holds the requests the subscriber has issued so far, in order.

`home_traces.dfy` (module `HomeTraces`) runs sequences of writes (`Run`, `Sent`).
It proves, by induction over any sequence of the six writes that `Action` lists,
what holds of every such history:

- how far the counter moves;
- exactly when saves fire and what they carry;
- that the first save after an empty log creates a new file;
- that the counter and loaded-flag writes never change what `partialize` stores.

JavaScript compares the chat log by object identity
(`state.chatLog !== prevState.chatLog`). The model represents that identity with
a counter `logVersion`, which every write of the chat log increases. The
`Message` type and `messageSelectors.cutImageMessage` are not part of this
model. `Message` is an abstract type, and the stripping selector is a function
parameter `cut` of `Partialize`.

The code has no clamp on the processing counter: a decrement from 0 gives -1.
The model follows the code, and `DecrementsGoNegative` states this.

## Model

| member | source | states |
|---|---|---|
| Home.HomeStore.constructor | src/features/stores/home.ts:43-75 | the initial state: counter 0, empty chat log, `userOnboarded`, `chatProcessing`, capture, webcam, shutter, Cubism and Live2D flags all false, no save request issued; introduction flag and background URL from configuration |
| Home.HomeStore.IncrementChatProcessingCount | src/features/stores/home.ts:55-59 | the counter rises by exactly 1, every other field is unchanged and no save request is issued |
| Home.HomeStore.DecrementChatProcessingCount | src/features/stores/home.ts:60-64 | the counter falls by exactly 1 with no lower bound, every other field is unchanged and no save request is issued |
| Home.HomeStore.SetIsCubismCoreLoaded | src/features/stores/home.ts:72-73 | only `isCubismCoreLoaded` changes, to the argument; no save request |
| Home.HomeStore.SetIsLive2dLoaded | src/features/stores/home.ts:75 | only `isLive2dLoaded` changes, to the argument; no save request |
| Home.HomeStore.SetChatLog | src/features/stores/home.ts:88-101 | replacing the chat log changes only the log and its identity; exactly one request carrying the new log is issued when the new log is non-empty, with `isNewFile` true exactly when the old log was empty; none otherwise |
| Home.HomeStore.SetShowIntroduction | src/components/StartSetting.tsx:127-129 | a caller's write of the introduction flag changes only that flag and issues no save request |
| Home.HomeStore.Notify | src/features/stores/home.ts:88-101 | the subscriber changes no store field; it only appends the request decided for the write from the previous to the current state |
| Home.StepEffect | src/features/stores/home.ts:55-75 | each write moves the counter by +1, -1 or 0 as it is an increment, a decrement or neither; only a chat-log write replaces the log and its identity; only an introduction write changes that flag |
| Home.SaveOnWrite | src/features/stores/home.ts:88-99 | a write leads to a request iff it installs a non-empty chat log; the request is then exactly the unstripped new log with `isNewFile` iff the replaced log was empty |
| Home.PartializeIgnoresOtherFields | src/features/stores/home.ts:79-82 | the persisted value depends only on the chat log and the introduction flag, so `userOnboarded` and every transient field are excluded; the stored log is the image-stripped log and the stored introduction flag is the state's flag |
| Home.IncrementDecrementCancel | src/features/stores/home.ts:55-64 | an increment followed by a decrement (or the reverse) restores the whole state |
| Home.LoadedSettersIdempotent | src/features/stores/home.ts:72-75 | setting a loaded flag twice equals setting it once; both setters leave the chat log, its identity, the counter and the introduction flag alone |
| HomeTraces.CounterAfterTrace | src/features/stores/home.ts:55-64 | after any sequence of writes the counter equals its start value plus the number of increments minus the number of decrements |
| HomeTraces.BalancedTraceRestoresCounter | src/features/stores/home.ts:55-64 | paired increments and decrements leave the counter at its value before the sequence, whatever else is written in between |
| HomeTraces.DecrementsGoNegative | src/features/stores/home.ts:60-64 | from a zero counter, k decrements leave it at -k |
| HomeTraces.SavesMatchNonEmptyLogWrites | src/features/stores/home.ts:88-90 | over any sequence of writes, the number of save requests equals the number of writes of a non-empty chat log |
| HomeTraces.SavedLogsAreNonEmpty | src/features/stores/home.ts:90-97 | no request ever carries an empty log |
| HomeTraces.FirstSaveIsNewFile | src/features/stores/home.ts:90-98 | starting from an empty log, the first request of any sequence of writes has `isNewFile` set |
| HomeTraces.NoLogWriteNoSave | src/features/stores/home.ts:88-90 | a sequence without chat-log writes keeps the log and its identity and issues no request |
| HomeTraces.TransientTraceKeepsPersisted | src/features/stores/home.ts:79-90 | a sequence of counter and loaded-flag writes (no chat-log or introduction write) leaves the persisted projection unchanged and issues no request |
| HomeTraces.LastSaveCarriesCurrentLog | src/features/stores/home.ts:90-97 | when a sequence has replaced the log and the final log is non-empty, the last request issued carries exactly the final log |
| HomeTraces.UnchangedVersionMeansNoSave | src/features/stores/home.ts:88-90 | a sequence that leaves the log identity unchanged keeps the log and issues no request |
| HomeTraces.TwoAppendsFromEmptyLog | src/features/stores/home.ts:96-98 | from an empty log, two successive appends issue a "new file" request and then an "append" request, each with the log of its time |

## Left out

- The `fetch` call to `/api/save-chat-log` is not modelled: no transport, headers or JSON encoding. The model records each request body in `sent`.
- A failed save is only logged, and it never reaches the store. No member reacts to it, because the subscriber's frame is `sent` alone.
- The zustand `create`/`persist` machinery is not modelled: localStorage serialisation, rehydration and the merge of stored values at load. `set` is modelled as a shallow merge into the class fields.
- Writing back the same chat-log array is not modelled. Every `SetChatLog` installs a new array, so it always changes the log's identity.
- `viewer` and `live2dViewer` are external objects and are left out of the state.
- `NEXT_PUBLIC_SHOW_INTRODUCTION` and `NEXT_PUBLIC_BACKGROUND_IMAGE_PATH` become constructor parameters. The `'/bg-c.png'` fallback is not modelled.
- The `Message` type and `messageSelectors.cutImageMessage` are not part of this model. `Message` is an abstract type, and the selector is a parameter of `Partialize`.
- The onboarding overlay in `src/components/StartSetting.tsx` is not modelled: its rendering and the language fallback to `'ja'`. Only its write of `showIntroduction` appears, as `SetShowIntroduction`.
- Writes by callers to the other fields are not modelled as actions: `userOnboarded`, `assistantMessage`, `slideMessages`, `chatProcessing`, `modalImage`, `triggerShutter`, `webcamStatus`, `captureStatus` and `backgroundImageUrl`. A single `set` call that writes several fields and notifies the subscriber once is not modelled either. The lemmas in `HomeTraces` range over sequences of the six writes in `Action` only.
