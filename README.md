# Compression facade: registry, option protocol and one-shot adapters

This project models the orchestration layer of a pluggable compression package: a registry
from algorithm names to prototype algorithms; a factory that makes a fresh instance of a named
algorithm and applies typed options (`WithLevel`, `WithLitWidth`, `WithEndian`) to it in order;
and the one-shot `Encode`/`Decode` calls that run a stream encoder or decoder over an in-memory
buffer. The concrete codecs (gzip, zlib, LZW) are not part of this model. An algorithm is given by
a `Descriptor`. For each tunable, the descriptor says whether the algorithm has it and which
values its setter accepts. It also holds a `Codec`: pure functions that give what the encoder
and decoder emit and report.

Modules, one per component:

- `CompressTypes` (types.dfy): bytes, the `Level` and `Endian` constants (`NoCompression` 0,
  `BestSpeed` 1, `BestCompression` 9, `DefaultCompression` -1, `HuffmanOnly` -2, `Little` 0,
  `Big` 1), the errors, and the settings an instance holds.
- `Streams` (streams.dfy): the abstract `Codec`. It also holds the byte `Buffer`, the stream
  `Encoder` and `Decoder` classes, and `Copy`, which plays the part of io.Copy.
- `Options` (options.dfy): the `Option` datatype, whose constructors are the three option
  builders. It also has the setter specification `Set` and the in-order application `ApplyAll`,
  with the lemmas about ordering, short-circuiting and atomicity.
- `Algorithms` (algorithm.dfy): the `Algorithm` class, a prototype or an instance whose settings
  the setters change in place.
- `Compress` (compress.dfy): the `Registry` class with `Register`, `Algorithms`, `Registered` and
  `NewAlgorithm`, and the one-shot `Encode` and `Decode`, each specified by a pure function
  (`EncodeAll`, `DecodeAll`).
- `Stubs` (stubs.dfy): two stub algorithms with no tunables. "id" passes bytes through. "rev"
  buffers its input and writes it reversed when the encoder is closed. The module proves their
  round trips for every input. It also states the usage scenarios as verified methods: register
  and list both stubs, an unregistered name, a level refused by "id", and "hello" encoded and
  decoded by each stub.

The registry is a class, not a package-level variable, so each scenario can build its own.
`NewAlgorithm` has no `modifies` clause, so the verifier checks that it changes neither the
registry nor any registered prototype. This rests on the contract the model assumes for each
algorithm's own `NewAlgorithm()` (compress.go:99): it returns a fresh, default-configured
instance (see "## Left out").

## Model

| member | source | states |
|---|---|---|
| `Compress.Registry.Register` | compress.go:71-73 | afterwards `name` maps to the given algorithm, replacing any earlier entry; every other name keeps its presence and its entry |
| `Compress.Registry.Algorithms` | compress.go:76-82 | the result holds each registered name exactly once (no duplicates, length equals the registry's size) and no other string |
| `Compress.Registry.Registered` | compress.go:85-91 | no error exactly when the name is registered; otherwise the error names the missing algorithm |
| `Compress.Registry.NewAlgorithm` | compress.go:94-106 | an unregistered name gives a not-registered error and applies no option; otherwise the result is a fresh instance (never a registered prototype) carrying the result of applying the options in order to the default settings, or exactly the first failing option's error; registry and prototypes unchanged |
| `Algorithms.Algorithm.NewAlgorithm` | compress.go:99 | the interface method (compress.go:13), as the factory calls it: the prototype yields a fresh, default-configured instance of the same algorithm and is not changed (the contract assumed of each algorithm's unseen implementation; see "## Left out") |
| `Algorithms.Algorithm.SetLevel` | compress.go:19 | the setter stores the level exactly when the algorithm has a level that accepts it; otherwise it reports the setter's error and leaves the settings as they were |
| `Algorithms.Algorithm.SetLitWidth` | compress.go:20 | the same for the literal code width |
| `Algorithms.Algorithm.SetEndian` | compress.go:21 | the same for the byte order |
| `Algorithms.Algorithm.Apply` | compress.go:110-130 | running an option calls the setter of its own kind with its own value and returns that setter's error unchanged |
| `Algorithms.Algorithm.NewEncoder` | compress.go:15 | fails with the codec's error when the codec refuses the settings; otherwise a fresh encoder bound to the given buffer, with nothing consumed yet |
| `Algorithms.Algorithm.NewDecoder` | compress.go:16 | fails with the codec's error when the codec refuses the source; otherwise a fresh decoder whose pending output is what the codec decodes from the source |
| `Options.Set` | compress.go:19-21 | a setter succeeds exactly when the algorithm has the tunable and accepts the value; success changes that tunable to the value and no other; an absent tunable gives an unsupported-option error naming algorithm and option, and a refused value gives an invalid-option error |
| `Options.ApplyAllAppend` | compress.go:100-104 | applying `a + b` is applying `a` and then, only if that succeeded, applying `b` from the resulting settings |
| `Options.ApplyAllStep` | compress.go:100-104 | after a successful prefix, one more option is exactly one more setter call on the settings the prefix produced |
| `Options.LaterOptionsNeverRun` | compress.go:101-103 | once the options up to position k fail, the options after k have no effect: the whole application fails with the same error |
| `Options.ApplyAllSucceedsIff` | compress.go:100-105 | applying a list succeeds exactly when the algorithm accepts every option in it, whatever the starting settings |
| `Options.FirstRejectionWins` | compress.go:100-104 | when option k is the first one refused, the result is exactly that option's error |
| `Options.LastOptionWins` | compress.go:100-105 | after success each tunable holds the value of the last option of its kind, or its starting value when no option named it |
| `Streams.Encoder.Write` | compress.go:26 | a successful write consumes all of the input and appends the codec's output to the sink; a failed one consumes and appends nothing |
| `Streams.Encoder.Close` | compress.go:27 | closing marks the encoder closed and appends the codec's trailer to the sink, unless the codec fails |
| `Streams.Decoder.Read` | compress.go:32 | a read yields the next 1 to max pending bytes; with nothing pending it reports end of stream or the decoder's error |
| `Streams.Decoder.Close` | compress.go:33 | closing reports what the codec reports for this source and leaves the output as it was |
| `Streams.Copy` | compress.go:159 | copying moves every byte the decoder yields into the buffer, in order, and returns the decoder's final error or none |
| `Compress.Encode` | compress.go:133-149 | the result is the codec's write output followed by its close trailer, so the encoder was closed before the bytes were returned; the first failing step among construction, write and close decides the error and skips the later steps |
| `Compress.Decode` | compress.go:152-168 | the result is exactly what the decoder yields; the first failing step among construction, copy and close decides the error and skips the later steps |
| `Stubs.IdentityRoundTrip` | compress.go:133-168 | for the pass-through stub, encoding gives the input and decoding that gives the input back |
| `Stubs.ReverseRoundTrip` | compress.go:133-168 | for the reversing stub, whose bytes all come out at close, encoding gives the reversed input and decoding that gives the input back |
| `Stubs.ReverseHello` | compress.go:133-168 | with the reversing stub, the one-shot encoding of "hello" is "olleh" and the one-shot decoding of "olleh" is "hello" |
| `Stubs.StubsRefuseLevel` | compress.go:100-104 | an algorithm without a level refuses a level option with an unsupported-option error naming itself and the level, whatever options follow |

## Left out

- The concrete codecs (gzip, zlib, LZW, DEFLATE) and the setters' real validation rules are
  not part of this model. Each setter is modelled as "absent, or accepts a range [lo, hi]".
  Whether a value is accepted depends only on the value, not on the other settings.
- The round-trip law `Decode(Encode(b)) == b` is proved only for the two stub codecs. It cannot
  be proved for codecs whose behaviour is a parameter.
- `Algorithm.Ext` and the interface's own `Encode`/`Decode` methods (compress.go:14, 17-18) are
  per-algorithm code that is not shown. Only the package-level `Encode`/`Decode` are modelled.
- Error texts built with fmt.Errorf are modelled as error values that carry the algorithm name.
- Streams.Decoder.Read: a Go reader may return bytes and an error in the same call. The model
  delivers every decoded byte first and reports the end or the error on a later call. io.Copy's
  result is the same either way.
- Streams.Encoder.Write: a failing write is modelled as consuming nothing. A Go writer may
  report a partial count with its error; `Encode` ignores the count.
- Streams.Encoder.Write, Streams.Encoder.Close: these require that the encoder is still open.
  Using a stream after `Close` is outside the protocol, and `Encode` never does it.
- `Encode` and `Decode` do not close the stream when an earlier step fails, as in the source.
  The model does not track the resources such a stream holds.
- The registry has no lock, and neither does the source. Concurrent registration is not modelled.
- encoder.go is not part of this model. It declares a second `Encoder`, `WithLevel`,
  `WithLitWidth` and `Encode` that clash with compress.go. Its own logic is the not-registered
  lookup (encoder.go:23-26, with the text "algorithm is not registered") and a name-based
  one-shot `Encode` (encoder.go:56-73). Both duplicate compress.go:95-98 and 133-149. Its
  `NewEncoder` calls `a.NewEncoder(w, opts...)`, a signature that the interface's
  `NewEncoder(w io.Writer)` (compress.go:15) does not have.
- Algorithms.Algorithm.NewAlgorithm: compress.go:99 does not clone the prototype; it calls the
  prototype's own `NewAlgorithm()`, whose implementations are not shown. The model assumes, as
  the interface contract, that it returns a fresh object with the algorithm's default settings
  and leaves the receiver alone. The guarantees of `Compress.Registry.NewAlgorithm` that the
  instance is fresh, is never a registered prototype, and leaves the prototypes unchanged all
  rest on that assumption. A Go algorithm that returned its receiver would let the options
  change the registered prototype.
- Options.LaterOptionsNeverRun: Go's `Option` is the open type `func(Algorithm) error`
  (compress.go:37), so a caller may pass any function, one with side effects, or nil (which
  panics at compress.go:101). The model admits only the three library options, which act only
  through the setters. So the lemma states that later options have no effect on the result,
  not that they are never called.
- Algorithms.Algorithm.NewEncoder, Algorithms.Algorithm.NewDecoder: the interface
  (compress.go:15-16) accepts any `io.Writer` or `io.Reader`. The model binds only an in-memory
  `Buffer` and a whole byte sequence, as `Encode` and `Decode` use them, so I/O errors from the
  sink or source are not modelled.
- Compress.Registry.Register: a nil `Algorithm` can be registered in Go and then panics at
  compress.go:99. The model's registry holds non-null objects only, so that panic is not
  modelled.
