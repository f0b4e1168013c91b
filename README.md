# TypedDefaults in Dafny

TypedDefaults is a small Swift library for typed key-value persistence. A
value type that conforms to `DefaultConvertible` knows how to turn itself into
an untyped transport payload (`serialize()`) and how to rebuild itself from one
(the failable `init?`). A store that conforms to `DefaultStoreType` keeps one
such payload under a fixed key and offers `set`, `get` and `remove`. The
type-erasing `AnyStore` lets a call site hold one handle whatever store sits
behind it. The playground defines an example convertible type, `CameraConfig`,
and drives it through an `AnyStore` over an in-memory store.

This project models:

- `transport.dfy` (module `Transport`): the untyped payload as a tagged union
  `Value` (Boolean, integer, string, or a dictionary keyed by strings). It also
  holds the three checked casts the playground uses (`as? [String: Any]`,
  `as? Bool`, `as? Int`) as total functions that return an `Option`.
- `typed_defaults.dfy` (module `TypedDefaults`):
  - the convertible contract as a pair of functions, `Convertible<D>`, with
    the round-trip law `RoundTrips`;
  - the three store operations as functions on the backing dictionary
    (`Lookup`, `Stored`, `Removed`), with lemmas on set-then-get, overwrite,
    remove-then-get, idempotent remove and "only the store's own key is
    touched";
  - `Replay`, which runs any sequence of `set`/`remove` calls, with lemmas
    that `get` then depends on the last call only, never fabricates a value,
    and never changes another key's entry;
  - the classes `DictionaryStore` (a mutable `dictionary` field updated in
    place) and `AnyStore` (forwards to a wrapped store, or is inert).
- `playground.dfy` (module `Playground`): `CameraConfig`, its `Size`
  enumeration with raw values, `Decode` (the failable initialiser) and
  `Encode` (`serialize`), their round trip and defaulting rules, and the usage
  script as a method whose postconditions are the values the script's comments
  announce.

The dictionary store receives the convertible type's two functions as a
constructor argument. In Swift they come from the generic parameter
`Default: DefaultConvertible`. The playground's `InMemoryStore<CameraConfig>()`
is modelled as `DictionaryStore`. Its static key is a parameter of the usage
script.

Where the library text and the intended design differ, the model follows the
code:
- `get` after `set(v)` returns `Default(v.serialize())`. That is `v` only
  when the convertible type round-trips. `SetThenGet` states both halves.
- The inert `AnyStore.init(type:key:)` assigns `self.type`, which is not a
  property of the class (TypedDefaults/TypedDefaults.swift:59). The model
  leaves that assignment out.

## Model

| member | source | states |
|---|---|---|
| Transport.AsDictionary | TypedDefaults.playground/Contents.swift:26 | the cast to a string-keyed dictionary succeeds exactly on dictionary payloads and gives back their entries |
| Transport.BoolEntry | TypedDefaults.playground/Contents.swift:28 | an entry read as Bool is present exactly when the key exists and holds a Boolean, and it is that Boolean |
| Transport.IntEntry | TypedDefaults.playground/Contents.swift:29 | an entry read as Int is present exactly when the key exists and holds an integer, and it is that integer |
| TypedDefaults.Lookup | TypedDefaults/TypedDefaults.swift:120-123 | `get` gives nil when the key has no entry, and any value it gives is the failable initialiser's result on the stored entry |
| TypedDefaults.Stored | TypedDefaults/TypedDefaults.swift:115-118 | `set` puts the serialized value under the key and adds no other key |
| TypedDefaults.Removed | TypedDefaults/TypedDefaults.swift:125-127 | `remove` deletes the key's entry and no other key |
| TypedDefaults.FreshLookupIsNone | TypedDefaults/TypedDefaults.swift:109-122 | a store with an empty dictionary returns nil from `get` |
| TypedDefaults.SetThenGet | TypedDefaults/TypedDefaults.swift:115-122 | after `set(v)`, `get` returns the decoding of `v`'s serialization, which is `v` itself when the convertible type round-trips |
| TypedDefaults.SetOverwrites | TypedDefaults/TypedDefaults.swift:116-117 | `set(a)` followed by `set(b)` leaves the same dictionary as `set(b)` alone |
| TypedDefaults.RemoveThenGet | TypedDefaults/TypedDefaults.swift:120-127 | after `remove`, `get` returns nil whatever the prior state |
| TypedDefaults.RemoveIdempotent | TypedDefaults/TypedDefaults.swift:125-126 | a second `remove` changes nothing, and `remove` on an empty store leaves it empty |
| TypedDefaults.OtherEntriesUntouched | TypedDefaults/TypedDefaults.swift:115-127 | `set` and `remove` leave every entry under another key as it was, present or absent |
| TypedDefaults.ReplayThenGet | TypedDefaults/TypedDefaults.swift:115-127 | after any non-empty sequence of `set`/`remove` calls, `get` depends on the last call alone |
| TypedDefaults.GetNeverFabricates | TypedDefaults/TypedDefaults.swift:115-127 | from an empty store, any value `get` returns is the decoding of a value some earlier `set` stored, and is that value when the type round-trips |
| TypedDefaults.ReplayKeepsOtherEntries | TypedDefaults/TypedDefaults.swift:115-127 | no sequence of calls changes an entry under another key |
| TypedDefaults.DictionaryStore.constructor | TypedDefaults/TypedDefaults.swift:107-113 | a new store has the given key and an empty dictionary |
| TypedDefaults.DictionaryStore.Set | TypedDefaults/TypedDefaults.swift:115-118 | the dictionary becomes `Stored` of the old one, and the key is unchanged |
| TypedDefaults.DictionaryStore.Get | TypedDefaults/TypedDefaults.swift:120-123 | returns `Lookup` of the current dictionary and changes nothing |
| TypedDefaults.DictionaryStore.Remove | TypedDefaults/TypedDefaults.swift:125-127 | the dictionary becomes `Removed` of the old one |
| TypedDefaults.AnyStore.constructor | TypedDefaults/TypedDefaults.swift:49-55 | the handle takes the wrapped store's key and forwards to that store |
| TypedDefaults.AnyStore.Inert | TypedDefaults/TypedDefaults.swift:57-63 | the handle keeps the given key and wraps no store |
| TypedDefaults.AnyStore.Set | TypedDefaults/TypedDefaults.swift:65-67 | has exactly the effect of `set` on the wrapped store, and no effect on an inert handle |
| TypedDefaults.AnyStore.Get | TypedDefaults/TypedDefaults.swift:69-71 | returns what `get` on the wrapped store returns, and nil on an inert handle |
| TypedDefaults.AnyStore.Remove | TypedDefaults/TypedDefaults.swift:73-75 | has exactly the effect of `remove` on the wrapped store, and no effect on an inert handle |
| Playground.RawValue | TypedDefaults.playground/Contents.swift:16-18 | raw values are 0, 1, 2 in the declaration order Large, Medium, Small |
| Playground.SizeFromRawValue | TypedDefaults.playground/Contents.swift:16-18 | `Size(rawValue:)` succeeds exactly on 0..2 and inverts `rawValue` |
| Playground.Decode | TypedDefaults.playground/Contents.swift:25-34 | fails exactly on a payload that is not a dictionary; the flag is false only for an explicit Boolean false, and a size other than Medium comes only from an integer entry holding its raw value |
| Playground.Encode | TypedDefaults.playground/Contents.swift:36-38 | the payload is a dictionary with exactly the keys "cameraRoll" (a Boolean) and "size" (an integer) |
| Playground.RoundTrip | TypedDefaults.playground/Contents.swift:25-38 | deserializing a serialized configuration gives back that configuration |
| Playground.ConverterRoundTrips | TypedDefaults.playground/Contents.swift:15-38 | `CameraConfig` satisfies the round-trip law of the convertible contract |
| Playground.EmptyDictionaryDefaults | TypedDefaults.playground/Contents.swift:28-33 | the empty dictionary deserializes to camera roll true and size Medium |
| Playground.CameraRollRule | TypedDefaults.playground/Contents.swift:28 | a Boolean "cameraRoll" entry is taken as is; a missing or non-Boolean one gives true |
| Playground.SizeRule | TypedDefaults.playground/Contents.swift:29-33 | an integer "size" entry in 0..2 selects Large, Medium, Small in that order; anything else gives Medium |
| Playground.IgnoresOtherKeys | TypedDefaults.playground/Contents.swift:26-33 | two dictionaries that agree on "cameraRoll" and "size" deserialize alike |
| Playground.UsageScript | TypedDefaults.playground/Contents.swift:41-53 | through an `AnyStore` over an in-memory store: after setting the default configuration, `get` gives true and Medium, the wrapped store sees the same value, and after `remove` `get` gives nil |

## Left out

- `DefaultsStore` (TypedDefaults/TypedDefaults.swift:80-102) is not modelled. It delegates to the process-wide `NSUserDefaults` facility, which is persistent operating-system I/O.
- The `DefaultStoreType` protocol is not a separate interface. `DictionaryStore` is the only store modelled, so `AnyStore` wraps a `DictionaryStore`. The forwarding closures captured by `init(_ inner:)` become a reference to that store.
- The `Default.Type` argument of `init(type:key:)` is a type parameter of the class, not a value.
- `Preference.key` (TypedDefaults.playground/Contents.swift:8-12) needs the bundle identifier from the platform. The usage script takes the key as a parameter.
- Foundation bridging between `NSNumber`, `Bool` and `Int` is not modelled. A payload entry is a Boolean or an integer, never both.
- Swift's `Int` is 64 bits wide; `VInt` is unbounded. Only the range 0..2 matters to the decoder, so the width changes nothing.
- The playground's display of results is not modelled. The usage script returns the displayed values instead.
