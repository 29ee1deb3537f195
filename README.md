# OpenAL extension: WAVE loading and source bookkeeping, in Dafny

This project models the logic of the OpenAL extension for a game engine. It covers:

- **The RIFF/WAVE header parser (`loadWavFile`).** It checks the chunk tags of an in-memory
  WAVE file and finds where the PCM payload starts and how long it is. It reads the sample rate
  and maps (channels, bits per sample) to one of the four OpenAL buffer formats.
- **The `OpenAL` singleton.** It records, for every source it creates, the buffer that source
  plays. `removeSource` and `close` then release both handles together.
- **Two case mappings.** `setDistanceModel` maps a name to one of the seven distance models.
  `getSourceState` maps a state enum to its name.

Files:

- `wave.dfy` (module `Wave`) holds the parser `ParseWav` over a byte sequence.
- `wave.dfy` also holds `Serialize`, a writer for the layout the parser reads. It is the
  parser's inverse and serves as the independent reference. It also holds the properties
  proved about the parser.
- `openal.dfy` (module `OpenALFacade`) holds three things:
  - `LoadWavFile`: the parse, then the library upload;
  - the class `OpenAL`, whose `buffers: map<Handle, Handle>` field is updated by
    `NewSource`, `RemoveSource` and `Close`;
  - `InstanceSlot`, the static instance pointer behind `getInstance`.
- The distance-model and source-state mappings are in `openal.dfy` too.

Modelling decisions:

- **Layout.** The intended packed little-endian layout is modelled:
  - a 12-byte RIFF header;
  - a 24-byte fmt header;
  - a skip of exactly 2 bytes when the fmt chunk size is above 16;
  - an 8-byte data header;
  - the payload.
- **Field widths.** C `long` fields are read as signed 32-bit values and `short` fields as
  signed 16-bit values, as the structs declare them.
- **Short inputs.** The C code never compares the input length with these offsets. The model
  instead fails with `Truncated` whenever the input is too short for the struct the code would
  `memcpy`, or for the payload the data header declares. It uses no length precondition.
  Each check sits where the C code makes it: after the struct has been read.
- **Negative size.** A negative `subChunk2Size` fails with `BadDataSize`. In the C++ code the
  `new unsigned char[size]` for it throws instead (see "Left out").
- **Bytes** are the newtype `Wave.byte` (0..255), not `bv8`.
- **What the C code actually checks.** The code accepts a file whose first four bytes are
  `RIFF` *or* `WAVE`. It never looks at the form type at bytes 8..12, nor at the RIFF chunk
  size. The RIFF WAVE form puts the form type "WAVE" at bytes 8..12, but "RIFF" followed by
  any form type is accepted. `FormTypeNotChecked` and `OnlyReadFieldsMatter` state this.
- **Error messages.** For a bad `data` tag the code logs "Invalid fmt header", the same
  message as for a bad `fmt ` tag. The model keeps the two apart as `BadFmtHeader` and
  `BadDataHeader`; the text of the log message is not modelled.
- **Library inputs.** The native library is not modelled. Its outputs are method parameters:
  - the names `alGenBuffers` and `alGenSources` produce;
  - the `alGetError` status after the upload and after attaching the buffer;
  - the answer of `alIsBuffer`.
- **Deletions.** Each deletion the facade asks of the library (`alDeleteSources` with
  `alDeleteBuffers`, or `alDeleteBuffers` alone) is appended to the ghost log `released`.
- **Default properties.** The sources that get the default position, velocity and reference
  distance are collected in the ghost set `initialised`.
- **Unknown source in `removeSource`.** `std::map::operator[]` inserts buffer 0, and the
  following `erase` removes that entry again. So the table is unchanged and the pair
  (source, 0) is released. The model does the same.
- **`close` order.** `close` walks the `std::map` in ascending key order. `CloseOrder` gives
  that order.

## Model

| member | source | states |
|---|---|---|
| `Wave.Int16At` | openal/src/OpenAL.cpp:16-25 | a `short` field is the 2-byte little-endian value read at its offset, in the signed 16-bit range |
| `Wave.Int32At` | openal/src/OpenAL.cpp:7-33 | a `long` field is the 4-byte little-endian value read at its offset, in the signed 32-bit range |
| `Wave.DataHeaderAt` | openal/src/OpenAL.cpp:69-77 | the data header starts right after the 24-byte fmt header, plus exactly 2 bytes iff the fmt `subChunkSize` is above 16 |
| `Wave.FormatOf` | openal/src/OpenAL.cpp:96-111 | (1,16) gives MONO16, (2,8) gives STEREO8, (2,16) gives STEREO16, each if and only if; (1,8) and every other pair give MONO8 |
| `Wave.FormatCodesDistinct` | openal/src/OpenAL.cpp:96-111 | the four formats map to four distinct AL_FORMAT enums |
| `Wave.ParseWav` | openal/src/OpenAL.cpp:39-111 | success only if the first tag is "RIFF" or "WAVE", "fmt " follows the RIFF header and "data" sits at `DataHeaderAt`; a wrong first tag gives BadRiffHeader, then a wrong fmt tag BadFmtHeader, then a wrong data tag BadDataHeader; on success the payload is exactly the `subChunk2Size` bytes after the data header, the frequency is `sampleRate`, the format is `FormatOf(numChannels, bitsPerSample)` |
| `Wave.SerializeThenParse` | openal/src/OpenAL.cpp:50-111 | every well-laid-out file, with any chunk size, form type, audio format, byte rate, block align and skipped bytes, parses to its own format, sample rate and payload |
| `Wave.ParseThenSerialize` | openal/src/OpenAL.cpp:50-95 | every accepted input begins with the serialization of the header fields at the parser's offsets followed by the payload; the first tag is "RIFF" or "WAVE" |
| `Wave.TrailingBytesIgnored` | openal/src/OpenAL.cpp:86-90 | bytes after the declared payload do not change the result |
| `Wave.OnlyReadFieldsMatter` | openal/src/OpenAL.cpp:50-111 | two inputs of the same length that differ only in the unread header fields (RIFF size and form type, audio format, byte rate, block align, skipped bytes) and in the fmt size, and agree on whether that size exceeds 16, give the same result |
| `Wave.FormTypeNotChecked` | openal/src/OpenAL.cpp:51-57 | replacing the RIFF chunk size and form type (bytes 4..12) by any bytes leaves the result unchanged |
| `Wave.SkipIsAlwaysTwo` | openal/src/OpenAL.cpp:69-77 | replacing one fmt size above 16 by any other above 16 leaves the result unchanged: the skip is 2, never the size minus 16 |
| `OpenALFacade.LoadWavFile` | openal/src/OpenAL.cpp:112-131 | a rejected header yields name 0 and the parse error; an upload error yields name 0 for the generated buffer; otherwise the generated buffer holds exactly the parsed sound |
| `OpenALFacade.CloseOrderReleasesEachPairOnce` | openal/src/OpenAL.cpp:411-416 | the releases of `close` number one per entry, each is a recorded (source, buffer) pair, every pair is among them and the sources strictly ascend, so each pair is released exactly once |
| `OpenALFacade.CloseOrderSound` | openal/src/OpenAL.cpp:412-415 | the traversal lists as many releases as entries, each one an entry of the map, in ascending source order |
| `OpenALFacade.CloseOrderComplete` | openal/src/OpenAL.cpp:412-415 | the traversal lists every entry of the map |
| `OpenALFacade.OpenAL.constructor` | openal/src/OpenAL.cpp:204-205 | a new facade has an empty table and has released nothing |
| `OpenALFacade.OpenAL.NewSource` | openal/src/OpenAL.cpp:269-287 | a failed load returns 0 and leaves the table unchanged; otherwise it returns the generated source and records it with its buffer, whether or not the later error check passes; only that check decides whether defaults are applied; a failed upload releases the generated buffer if it is still a buffer |
| `OpenALFacade.OpenAL.RemoveSource` | openal/src/OpenAL.cpp:404-409 | the source is absent afterwards and every other entry is unchanged; the source and its recorded buffer are released, with buffer 0 for an unknown source |
| `OpenALFacade.OpenAL.Close` | openal/src/OpenAL.cpp:411-417 | releases exactly `CloseOrder` of the old table, in key order, and leaves the table empty |
| `OpenALFacade.InstanceSlot.constructor` | openal/src/OpenAL.cpp:202 | the instance pointer starts null |
| `OpenALFacade.InstanceSlot.GetInstance` | openal/src/OpenAL.cpp:207-212 | the first call creates a fresh facade with an empty table, no releases and no initialised sources; every later call returns that same object |
| `OpenALFacade.ModelNamed` | openal/src/OpenAL.cpp:214-238 | a name selects a model exactly when it is one of the seven model names, and the selected model carries that name |
| `OpenALFacade.SetDistanceModel` | openal/src/OpenAL.cpp:214-238 | an unrecognised name leaves the model unchanged; a recognised name selects the model of that name |
| `OpenALFacade.SetDistanceModelByName` | openal/src/OpenAL.cpp:214-238 | every model is selected by its own name, and another name yields it only when it is already the current model |
| `OpenALFacade.DistanceModelsDistinct` | openal/src/OpenAL.cpp:216-235 | the seven models have distinct names and distinct AL enums |
| `OpenALFacade.SourceStateName` | openal/src/OpenAL.cpp:302-316 | the name is empty exactly for values other than AL_INITIAL, AL_PLAYING, AL_PAUSED and AL_STOPPED; a non-empty name reads back as the state it came from |

## Left out

- `CreateWave` and `ApplySin` are left out. They synthesise waveforms with floating-point `sin`
  and `M_PI`, which this model does not represent.
- The property getters and setters and the transport controls are left out. This covers
  `getSourceDefaults`, the listener and source position/velocity/gain/cone setters, and
  play/pause/rewind/stop. They forward values to the library and hold no logic of their own.
- The foreign calls are not modelled: `alGenBuffers`, `alGenSources`, `alBufferData`,
  `alSourcei`, `alSourcef`, `alSource3f`, `alGetSourcei`, `alGetString`, `alGetError`,
  `alIsBuffer`, `alDeleteSources`, `alDeleteBuffers` and `alDistanceModel`. Their results are
  parameters; `SourceStateName` takes the state `alGetSourcei` reports. Their effects appear
  only as the ghost log `released` and the ghost set `initialised`. `SetDistanceModel` returns
  the library's new model instead of calling it.
- `dmBuffer::GetBytes` is not modelled. The input is the byte sequence it would expose. The
  size it reports is not consulted by the C code, while the model's `Truncated` checks use the
  sequence's length.
- A negative `subChunk2Size` (for example the bytes `FF FF FF FF`) is not modelled as the C++
  code behaves. There, `new unsigned char[size]` throws `std::bad_array_new_length`, or aborts
  without exceptions, and `loadWavFile` and `newSource` never return. The model turns this into
  the ordinary error `BadDataSize`, so `LoadWavFile` yields name 0 and `NewSource` returns 0 with
  the table unchanged.
- `dmLogError` and the message texts are not modelled. Errors are the values of `WavError`.
- The native struct padding, the 8-byte `long` of LP64 platforms and the host byte order that
  `memcpy` relies on are not modelled. The model reads the packed little-endian layout the
  code intends.
- `hash_string` and `HASH_S16` are not modelled. Names are compared by string equality, so
  hash collisions are ignored.
- `new[]`/`delete` of the payload copy is not modelled. The payload is a subsequence of the
  input.
- Handles are unbounded naturals rather than 32-bit `ALuint`s. No arithmetic is done on them.
