# slither-lsp, modelled in Dafny

slither-lsp is a Language Server Protocol server for Solidity built around
the Slither static analyzer. The repository holds three overlapping
generations of the server:

- a legacy server (`slither_lsp/types`, `state`, `servers`, `command_handlers`,
  `errors`) with hand-written per-class JSON codecs, a nested-path capability
  store, an analysis registry and a JSON-RPC dispatcher;
- a middle generation (`slither_lsp/lsp/...`) with a generic, schema-driven
  dataclass codec, typed schemas for the protocol's structures, parameters,
  capabilities and registration options, and base-protocol message framing;
- the live pygls application (`slither_lsp/app/...`), which keeps one Slither
  analysis per workspace folder, publishes detector findings as diagnostics,
  and answers go-to, call-hierarchy, type-hierarchy, document-symbol and
  inlay-hint requests from those analyses.

Slither and crytic-compile do the semantic work. This model covers everything
the server itself does around them: encoding and decoding, framing,
dispatching, storing, grouping and querying.

How the model is laid out:

- **Codec.** `Values`, `Naming`, `Codec`, `CodecLaws`, `CodecRoundTrip` and
  `CodecDefaults` model the generic codec. Python reflection is replaced by an
  explicit schema of class declarations, each with typed fields, defaults and
  metadata. The round trip `from_dict(to_dict(x)) == x` is proved for every
  value the annotations describe unambiguously.
- **Typed schemas.** `LspBasic`, `LspParams`, `LspCapabilities` and
  `LspRegistration` write down the typed schemas. Their `...Laws` and
  `...Props` companions prove what those schemas promise through the codec.
- **Legacy codec.** `LegacyCodec` and `LegacyTypes` model the hand-written
  hooks: a class is described by the statements of its two hooks, and those
  statements are interpreted.
- **Protocol, stores and validators.** `Errors` holds the error codes.
  `JsonRpcIo` models the framing and `Dispatcher` the dispatcher.
  `StateCapabilities` is the capability store and `ServerContexts` the
  registry. `Initialize` covers the three `initialize` handlers and
  `AnalysisCreate` the analysis-creation validator.
- **The app.** These modules are classes with state and methods, each method
  proved against a specification function:
  - `AppTypes` (class `Client`);
  - `SlitherServer` (class `Server`);
  - `SlitherDiagnostics` (class `Diagnostics`);
  - `SolidityWorkspace` (class `Workspace`).

  The request handlers are methods whose loops are proved against functions:
  - `GotoLocations`;
  - `CallHierarchy`;
  - `TypeHierarchy`;
  - `Symbols`;
  - `InlayHints`.

  Supporting modules:
  - `AppRanges`, `FilePaths` and `OrderedDicts` model Python dicts with their
    insertion order;
  - `SlitherObjects` is the abstract interface to Slither;
  - `Collecting` holds the comprehension folds.

## Model

| member | source | states |
|---|---|---|
| `Naming.CamelCaseIdentity` | slither_lsp/lsp/types/base_serializable_structure.py:9-17 | a field name without '_' is its own camelCase key |
| `Naming.CamelCaseOfWords` | slither_lsp/lsp/types/base_serializable_structure.py:9-17 | the key of `w0_w1_…_wn` is `w0` unchanged followed by each later word title-cased |
| `Naming.CamelCaseKeepsFirstPart` | slither_lsp/lsp/types/base_serializable_structure.py:16-17 | the text before the first '_' is kept as the key's prefix |
| `Naming.CamelCaseHasNoUnderscore` | slither_lsp/lsp/types/base_serializable_structure.py:16-17 | no key contains '_' |
| `Naming.CamelCaseRoundTrip` | slither_lsp/lsp/types/base_serializable_structure.py:9-17 | on snake_case names the conversion has an inverse (upper-case letter back to '_' plus lower-case) |
| `Naming.CamelCaseInjective` | slither_lsp/lsp/types/base_serializable_structure.py:9-17 | distinct snake_case field names get distinct keys |
| `Naming.CamelCaseCollision` | slither_lsp/lsp/types/base_serializable_structure.py:16-17 | outside snake_case the conversion is not injective: `a__b` and `a_b` both become `aB` |
| `Naming.CamelCaseTwo` | slither_lsp/lsp/types/base_serializable_structure.py:16-17 | the key of `a_b` is `a` then `b` with its first letter upper-cased |
| `Naming.CamelCaseThree` | slither_lsp/lsp/types/base_serializable_structure.py:16-17 | the key of `a_b_c` is `a`, then `b` and `c` each with its first letter upper-cased |
| `Codec.SerializationMetadata` | slither_lsp/lsp/types/base_serializable_structure.py:52-69 | each metadata key is present exactly when its argument is not None, holding that argument |
| `Codec.SerializeField` | slither_lsp/lsp/types/base_serializable_structure.py:94-172 | the None check and the early-return loop over candidate types compute the serialization function |
| `Codec.DeserializeField` | slither_lsp/lsp/types/base_serializable_structure.py:175-255 | the None check and the early-return loop over candidate types compute the deserialization function |
| `Codec.FromDictLoop` | slither_lsp/lsp/types/base_serializable_structure.py:257-309 | the loop filling `init_args`, then the constructor call, computes `from_dict` |
| `Codec.ReadField` | slither_lsp/lsp/types/base_serializable_structure.py:273-306 | one pass of the loop yields exactly InitArg: the deserialized value (checked against the default when it is an enforced constant), else the default, or the exception raised |
| `Codec.ToDictLoop` | slither_lsp/lsp/types/base_serializable_structure.py:311-351 | the loop filling `result` computes `to_dict` |
| `Codec.Clone` | slither_lsp/lsp/types/base_serializable_structure.py:86-91 | `clone()` returns `from_dict(to_dict(self))` on the instance's class |
| `CodecLaws.KeyOfMetadata` | slither_lsp/lsp/types/base_serializable_structure.py:276-282 | the JSON key is the 'name' override, else the camelCase field name; a name without '_' is its own key |
| `CodecLaws.MetadataFlags` | slither_lsp/lsp/types/base_serializable_structure.py:293-294 | include_none and enforce_as_constant are in force exactly when given True; absent keys are falsy |
| `CodecLaws.NoneHandling` | slither_lsp/lsp/types/base_serializable_structure.py:105-191 | None is accepted (and returned as None) in either direction exactly when the type admits None or Any; otherwise ValueError |
| `CodecLaws.SerializeAltsFirstMatch` | slither_lsp/lsp/types/base_serializable_structure.py:116-172 | serialization returns the outcome of the first candidate that matches, ValueError when none does |
| `CodecLaws.DeserializeAltsFirstMatch` | slither_lsp/lsp/types/base_serializable_structure.py:197-255 | deserialization returns the outcome of the first candidate that matches, ValueError when none does |
| `CodecLaws.UnionSerializeFirstMatch` | slither_lsp/lsp/types/base_serializable_structure.py:98-172 | a union serializes a non-None value through its first matching alternative in declaration order |
| `CodecLaws.UnionDeserializeFirstMatch` | slither_lsp/lsp/types/base_serializable_structure.py:179-255 | a union parses a non-None value through its first matching alternative in declaration order |
| `CodecLaws.SerializeItemsElementwise` | slither_lsp/lsp/types/base_serializable_structure.py:142-163 | a list serializes exactly when every item does, item j giving entry j, with the element type |
| `CodecLaws.DeserializeItemsElementwise` | slither_lsp/lsp/types/base_serializable_structure.py:229-252 | a list parses exactly when every item does, item j giving entry j, with the element type |
| `CodecLaws.SingleSerialize` | slither_lsp/lsp/types/base_serializable_structure.py:98-103 | a non-union type is a single iteration of the serialization loop; no match raises ValueError |
| `CodecLaws.SingleDeserialize` | slither_lsp/lsp/types/base_serializable_structure.py:179-184 | a non-union type is a single iteration of the deserialization loop; no match raises ValueError |
| `CodecLaws.EnumSerializesToValue` | slither_lsp/lsp/types/base_serializable_structure.py:127-135 | an enum member serializes to its `.value` |
| `CodecLaws.IntEnumParse` | slither_lsp/lsp/types/base_serializable_structure.py:214-216 | under an IntEnum an int becomes the member with that value, else ValueError |
| `CodecLaws.StrEnumParse` | slither_lsp/lsp/types/base_serializable_structure.py:217-218 | under a str Enum a str becomes the member with that value, else ValueError |
| `CodecLaws.FlagNeverParses` | slither_lsp/lsp/types/base_serializable_structure.py:214-218 | an IntFlag is not an IntEnum, so no value parses under a flag type |
| `CodecLaws.InitArgsOk` | slither_lsp/lsp/types/base_serializable_structure.py:270-306 | `from_dict`'s loop succeeds exactly when every field's step does |
| `CodecLaws.InitArgsFirstErr` | slither_lsp/lsp/types/base_serializable_structure.py:270-306 | `from_dict`'s loop fails with the error of the first failing field |
| `CodecLaws.InitArgsValues` | slither_lsp/lsp/types/base_serializable_structure.py:302-306 | on success each field name maps to that field's parsed value or default |
| `CodecLaws.FromDictCharacterized` | slither_lsp/lsp/types/base_serializable_structure.py:257-309 | `from_dict` succeeds exactly when every field step does, with those arguments |
| `CodecLaws.FromDictIs` | slither_lsp/lsp/types/base_serializable_structure.py:257-309 | `from_dict` builds exactly the instance whose arguments are the fields' parsed values |
| `CodecLaws.AbsentKeyTakesDefault` | slither_lsp/lsp/types/base_serializable_structure.py:303-306 | an absent key takes the default, else the factory's product, else None; a missing required field is not an error |
| `CodecLaws.PresentKeyDeserialized` | slither_lsp/lsp/types/base_serializable_structure.py:287-302 | a present key is parsed with the field's type; an enforced constant that differs from its default raises ValueError |
| `CodecLaws.FromDictNonDict` | slither_lsp/lsp/types/base_serializable_structure.py:285 | a non-dict argument raises AttributeError on `obj.get` unless the class has no fields |
| `CodecLaws.InitArgIgnoresOtherKey` | slither_lsp/lsp/types/base_serializable_structure.py:285-288 | a field's step reads only its own key |
| `CodecLaws.InitArgsIgnoresExtraKey` | slither_lsp/lsp/types/base_serializable_structure.py:268-306 | keys that belong to no field do not change `from_dict`'s loop |
| `CodecLaws.FromDictIgnoresExtraKey` | slither_lsp/lsp/types/base_serializable_structure.py:257-309 | keys that belong to no field do not change `from_dict` |
| `CodecLaws.ToDictEntriesOk` | slither_lsp/lsp/types/base_serializable_structure.py:324-349 | `to_dict`'s loop succeeds exactly when every field's value serializes |
| `CodecLaws.ToDictEntriesFirstErr` | slither_lsp/lsp/types/base_serializable_structure.py:324-349 | `to_dict`'s loop fails with the error of the first failing field |
| `CodecLaws.ToDictEntriesKeys` | slither_lsp/lsp/types/base_serializable_structure.py:346-349 | on success the keys are exactly those of the written fields |
| `CodecLaws.WrittenKeysMeaning` | slither_lsp/lsp/types/base_serializable_structure.py:346-349 | every written key is the key of some field whose value was written |
| `CodecLaws.ToDictEntriesFold` | slither_lsp/lsp/types/base_serializable_structure.py:318-349 | on success the loop's dict is the in-order insertion of each written field's value under its key |
| `CodecLaws.ToDictEntriesValues` | slither_lsp/lsp/types/base_serializable_structure.py:343-349 | on success each written field's key holds its serialized value |
| `CodecLaws.ToDictIs` | slither_lsp/lsp/types/base_serializable_structure.py:311-351 | `to_dict` yields exactly the dict holding each written field's serialized value under its key |
| `CodecLaws.ToDictCharacterized` | slither_lsp/lsp/types/base_serializable_structure.py:311-351 | `to_dict` succeeds exactly when every field serializes, with keys and values as above |
| `CodecLaws.KeyIsName` | slither_lsp/lsp/types/base_serializable_structure.py:330-336 | without a 'name' override a one-word field name is its own key |
| `CodecLaws.ToDictEntry` | slither_lsp/lsp/types/base_serializable_structure.py:346-349 | the returned dict holds a written field's serialized value under its key |
| `CodecLaws.ToDictOmits` | slither_lsp/lsp/types/base_serializable_structure.py:346-349 | a field that is not written has no key in the dict when no other field shares its key |
| `CodecLaws.NoneOmittedUnlessIncluded` | slither_lsp/lsp/types/base_serializable_structure.py:346-349 | None is written only under include_none, and then as null |
| `CodecLaws.EnforcedWritesDefault` | slither_lsp/lsp/types/base_serializable_structure.py:338-341 | an enforced constant is written from its default whatever the instance holds |
| `CodecLaws.CloneIsFromDictOfToDict` | slither_lsp/lsp/types/base_serializable_structure.py:86-91 | `clone()` is `from_dict(to_dict(self))` on the instance's own class |
| `CodecDefaults.NewInstanceIs` | slither_lsp/lsp/types/base_serializable_structure.py:45-48 | a class default factory builds the instance holding each field's default or factory product |
| `CodecDefaults.NewInstanceMissingArgument` | slither_lsp/lsp/types/base_serializable_structure.py:47-48 | a class default factory raises TypeError when one of its fields has no default |
| `CodecDefaults.InitArgPresent` | slither_lsp/lsp/types/base_serializable_structure.py:288-302 | a present key of a non-constant field stores the parsed value |
| `CodecDefaults.InitArgAbsent` | slither_lsp/lsp/types/base_serializable_structure.py:303-306 | an absent key stores the field's default value |
| `CodecDefaults.FromDictInstance` | slither_lsp/lsp/types/base_serializable_structure.py:308-309 | `from_dict` builds the instance from the values each field's step stores |
| `CodecDefaults.FromEmptyDict` | slither_lsp/lsp/types/base_serializable_structure.py:303-309 | `from_dict({})` gives every field its declared default or factory product |
| `CodecDefaults.FromDictArg` | slither_lsp/lsp/types/base_serializable_structure.py:302-306 | the value stored for a field is its own step's result unless a later field has the same name |
| `CodecDefaults.FromDictFails` | slither_lsp/lsp/types/base_serializable_structure.py:290-300 | `from_dict` fails as soon as one field's step fails |
| `CodecDefaults.ToDictOnly` | slither_lsp/lsp/types/base_serializable_structure.py:346-351 | an instance that writes a single field serializes to the dict of that one key |
| `CodecDefaults.ToDictNothing` | slither_lsp/lsp/types/base_serializable_structure.py:346-351 | an instance whose every field is dropped serializes to `{}` |
| `CodecDefaults.NoneArgOmitted` | slither_lsp/lsp/types/base_serializable_structure.py:346-349 | a None argument of an optional, non-constant field without include_none is dropped |
| `CodecDefaults.ToDictPair` | slither_lsp/lsp/types/base_serializable_structure.py:346-351 | an instance that writes exactly two fields serializes to those two keys |
| `CodecDefaults.NewNoneInstance` | slither_lsp/lsp/types/base_serializable_structure.py:45-48 | the factory of a class whose fields all default to None builds the all-None instance |
| `CodecDefaults.FromEmptyNoneInstance` | slither_lsp/lsp/types/base_serializable_structure.py:303-306 | `from_dict({})` of such a class is the all-None instance |
| `CodecDefaults.NoneInstanceToDict` | slither_lsp/lsp/types/base_serializable_structure.py:346-349 | the all-None instance of such a class serializes to `{}` |
| `CodecRoundTrip.RoundTrip` | slither_lsp/lsp/types/base_serializable_structure.py:94-255 | a value of its type that meets the round-trip conditions serializes and parses back to itself |
| `CodecRoundTrip.ScalarRoundTrip` | slither_lsp/lsp/types/base_serializable_structure.py:119-135 | Any, primitive and enum values round-trip (an enum through its `.value`) |
| `CodecRoundTrip.ListRoundTrip` | slither_lsp/lsp/types/base_serializable_structure.py:142-163 | a list of round-trippable items round-trips element-wise |
| `CodecRoundTrip.ListSerializes` | slither_lsp/lsp/types/base_serializable_structure.py:142-163 | a list whose items all serialize is written item by item |
| `CodecRoundTrip.ListDeserializes` | slither_lsp/lsp/types/base_serializable_structure.py:229-252 | a list whose items all parse is read item by item |
| `CodecRoundTrip.UnionRoundTrip` | slither_lsp/lsp/types/base_serializable_structure.py:98-255 | a union value round-trips when no earlier alternative captures its serialized form |
| `CodecRoundTrip.StructRoundTrip` | slither_lsp/lsp/types/base_serializable_structure.py:257-351 | an instance round-trips through `to_dict` and `from_dict` |
| `CodecRoundTrip.StructToDict` | slither_lsp/lsp/types/base_serializable_structure.py:311-351 | `to_dict` of a rebuildable instance succeeds with JSON data |
| `CodecRoundTrip.StructFromDict` | slither_lsp/lsp/types/base_serializable_structure.py:257-309 | `from_dict` of the dict `to_dict` wrote gives back the instance |
| `CodecRoundTrip.CloneIsIdentity` | slither_lsp/lsp/types/base_serializable_structure.py:86-91 | `clone()` returns an equal instance for every round-trippable instance |
| `CodecRoundTrip.ToDictStable` | slither_lsp/lsp/types/base_serializable_structure.py:311-351 | `to_dict` is unchanged by the round trip |
| `CodecRoundTrip.InstanceRT` | slither_lsp/lsp/types/base_serializable_structure.py:257-351 | an instance with distinct names and keys whose values fit their fields round-trips |
| `CodecRoundTrip.RTWritten` | slither_lsp/lsp/types/base_serializable_structure.py:346-349 | for a round-trippable instance a key is written exactly when its value is not None or include_none holds |
| `CodecRoundTrip.OptionalSerialize` | slither_lsp/lsp/types/base_serializable_structure.py:112-125 | a non-None value of `Optional[t]` serializes as `t` serializes it |
| `CodecRoundTrip.ArgNestedOut` | slither_lsp/lsp/types/base_serializable_structure.py:137-140 | a nested instance is written as its own `to_dict()` |
| `CodecRoundTrip.IntEnumListSerialize` | slither_lsp/lsp/types/base_serializable_structure.py:127-163 | a list of IntEnum members is written as the list of their integers |
| `CodecRoundTrip.AnyListSerialize` | slither_lsp/lsp/types/base_serializable_structure.py:142-169 | a list of JSON values under `List[Any]` is written unchanged, element by element |
| `CodecRoundTrip.SnakeKeys` | slither_lsp/lsp/types/base_serializable_structure.py:9-17 | distinct snake_case field names give distinct keys |
| `LspBasicLaws.PositionKeys` | slither_lsp/lsp/types/basic_structures.py:61-77 | Position is written under `line` and `character` |
| `LspBasicLaws.PositionRT` | slither_lsp/lsp/types/basic_structures.py:61-77 | every Position round-trips through `to_dict`/`from_dict` |
| `LspBasicLaws.RangeKeys` | slither_lsp/lsp/types/basic_structures.py:80-91 | Range is written under `start` and `end` |
| `LspBasicLaws.RangeRT` | slither_lsp/lsp/types/basic_structures.py:80-91 | a Range of positions round-trips |
| `LspBasicLaws.LocationKeys` | slither_lsp/lsp/types/basic_structures.py:94-102 | Location is written under `uri` and `range` |
| `LspBasicLaws.LocationRT` | slither_lsp/lsp/types/basic_structures.py:94-102 | a Location round-trips |
| `LspBasicLaws.LocationLinkKeys` | slither_lsp/lsp/types/basic_structures.py:105-129 | LocationLink's keys are targetUri, targetRange, targetSelectionRange and originSelectionRange |
| `LspBasicLaws.LocationLinkRT` | slither_lsp/lsp/types/basic_structures.py:105-129 | a LocationLink round-trips, with or without its origin range |
| `LspBasicLaws.CodeDescriptionKeys` | slither_lsp/lsp/types/basic_structures.py:175-182 | CodeDescription is written under `href` |
| `LspBasicLaws.CodeDescriptionRT` | slither_lsp/lsp/types/basic_structures.py:175-182 | a CodeDescription round-trips |
| `LspBasicLaws.DiagnosticRelatedInformationKeys` | slither_lsp/lsp/types/basic_structures.py:162-172 | DiagnosticRelatedInformation is written under `location` and `message` |
| `LspBasicLaws.DiagnosticRelatedInformationRT` | slither_lsp/lsp/types/basic_structures.py:162-172 | a DiagnosticRelatedInformation round-trips |
| `LspBasicLaws.CodeRT` | slither_lsp/lsp/types/basic_structures.py:204 | the diagnostic code, `Union[int, str, None]`, round-trips as an int, a str or None |
| `LspBasicLaws.DiagnosticRT` | slither_lsp/lsp/types/basic_structures.py:185-223 | a Diagnostic round-trips with every optional field set or None |
| `LspBasicLaws.CommandKeys` | slither_lsp/lsp/types/basic_structures.py:226-240 | Command is written under `title`, `command` and `arguments` |
| `LspBasicLaws.CommandRT` | slither_lsp/lsp/types/basic_structures.py:226-240 | a Command whose arguments are JSON values, or None, round-trips |
| `LspBasicLaws.TextEditKeys` | slither_lsp/lsp/types/basic_structures.py:243-256 | TextEdit is written under `range` and `newText` |
| `LspBasicLaws.TextEditRT` | slither_lsp/lsp/types/basic_structures.py:243-256 | a TextEdit round-trips |
| `LspBasicLaws.AnnotatedTextEditKeys` | slither_lsp/lsp/types/basic_structures.py:279-287 | AnnotatedTextEdit is written under the inherited `range` and `newText` plus `annotationId` |
| `LspBasicLaws.AnnotatedTextEditRT` | slither_lsp/lsp/types/basic_structures.py:279-287 | an AnnotatedTextEdit round-trips |
| `LspBasicLaws.ClientServerInfoKeys` | slither_lsp/lsp/types/basic_structures.py:19-31 | ClientServerInfo is written under `name` and `version` |
| `LspBasicLaws.ClientServerInfoRT` | slither_lsp/lsp/types/basic_structures.py:19-31 | a ClientServerInfo round-trips, with or without a version |
| `LspBasicLaws.TextDocumentIdentifierKeys` | slither_lsp/lsp/types/basic_structures.py:290-298 | TextDocumentIdentifier is written under `uri` |
| `LspBasicLaws.TextDocumentIdentifierRT` | slither_lsp/lsp/types/basic_structures.py:290-298 | a TextDocumentIdentifier round-trips |
| `LspBasicProps.PositionToDict` | tests/test_lsp_basic_structures.py:55-67 | `Position(l, c).to_dict()` is `{'line': l, 'character': c}` |
| `LspBasicProps.PositionRoundTrip` | tests/test_lsp_basic_structures.py:55-67 | a Position is parsed back unchanged from its dict |
| `LspBasicProps.RangeToDict` | tests/test_lsp_basic_structures.py:70-85 | a Range is written as `{'start': {…}, 'end': {…}}` |
| `LspBasicProps.RangeRoundTrip` | tests/test_lsp_basic_structures.py:70-85 | a Range is parsed back unchanged from its dict |
| `LspBasicProps.LocationToDict` | tests/test_lsp_basic_structures.py:88-104 | a Location is written as `{'uri': …, 'range': range.to_dict()}` |
| `LspBasicProps.LocationRoundTrip` | tests/test_lsp_basic_structures.py:88-104 | a Location is parsed back unchanged from its dict |
| `LspBasicProps.LocationLinkWritten` | slither_lsp/lsp/types/basic_structures.py:105-129 | originSelectionRange is written exactly when set; the other three keys always |
| `LspBasicProps.LocationLinkRoundTrip` | tests/test_lsp_basic_structures.py:107-129 | a LocationLink is written under its four camelCase keys and parsed back unchanged |
| `LspBasicProps.AnnotatedTextEditToDict` | slither_lsp/lsp/types/basic_structures.py:279-287 | an AnnotatedTextEdit is written as `{'range', 'newText', 'annotationId'}` |
| `LspBasicProps.AnnotatedTextEditRoundTrip` | tests/test_lsp_basic_structures.py:280-297 | an AnnotatedTextEdit is parsed back unchanged from its dict |
| `LspBasicProps.ClientServerInfoFromName` | tests/test_lsp_basic_structures.py:7-19 | parsed from only a name, version is None and `to_dict` has no 'version' key |
| `LspBasicProps.ClientServerInfoToDict` | slither_lsp/lsp/types/basic_structures.py:19-31 | a ClientServerInfo with a version is written with both keys |
| `LspBasicProps.DiagnosticWithIntsRT` | slither_lsp/lsp/types/basic_structures.py:185-223 | a Diagnostic built from integer severity and tags round-trips |
| `LspBasicProps.DiagnosticRoundTrip` | tests/test_lsp_basic_structures.py:166-210 | a Diagnostic with every optional field is written with severity and tags as integers and parsed back unchanged |
| `LspBasicProps.CommandArgumentsPassThrough` | tests/test_lsp_basic_structures.py:213-237 | `Command.arguments` is written element by element unchanged, and parsed back unchanged |
| `LspBasicProps.KindWritten` | slither_lsp/lsp/types/basic_structures.py:390 | a constant `kind` field is written as its constant whatever the instance holds |
| `LspBasicProps.KindParsed` | slither_lsp/lsp/types/basic_structures.py:390 | parsing raises ValueError for any other kind and keeps the constant when it is absent or equal |
| `LspBasicProps.CreateFileKind` | slither_lsp/lsp/types/basic_structures.py:372-390 | CreateFile always writes kind 'create' and rejects any other kind |
| `LspBasicProps.RenameFileKind` | slither_lsp/lsp/types/basic_structures.py:407-428 | RenameFile always writes kind 'rename' and rejects any other kind |
| `LspBasicProps.DeleteFileKind` | slither_lsp/lsp/types/basic_structures.py:445-463 | DeleteFile always writes kind 'delete' and rejects any other kind |
| `LspBasicProps.VersionedIdentifierToDict` | slither_lsp/lsp/types/basic_structures.py:301-338 | both versioned identifiers write `"version": null` when the version is None |
| `LspParamsProps.SetTraceFromEmpty` | slither_lsp/lsp/types/params.py:104-111 | `SetTraceParams.from_dict({})` has value `TraceValue.OFF` |
| `LspParamsProps.MessageParamsArgs` | slither_lsp/lsp/types/params.py:115-125 | a message params instance holds exactly its type member and its message |
| `LspParamsProps.MessageParamsFromEmpty` | slither_lsp/lsp/types/params.py:115-125 | ShowMessageParams and LogMessageParams parsed from `{}` have type `MessageType.LOG` (4) and message "" |
| `LspParamsProps.MessageParamsKeys` | slither_lsp/lsp/types/params.py:168-178 | the two fields are written under the distinct keys `type` and `message` |
| `LspParamsProps.MessageParamsToDict` | slither_lsp/lsp/types/params.py:168-178 | for every MessageType integer, the type is written as that integer next to the message |
| `LspParamsProps.MessageParamsFromDict` | slither_lsp/lsp/types/params.py:168-178 | parsing `{"type": t, "message": m}` gives the instance back, for every MessageType integer t |
| `LspParamsProps.MessageTypeParsed` | slither_lsp/lsp/types/params.py:175 | a MessageType integer under `type` parses to that member |
| `LspParamsProps.MessageTextParsed` | slither_lsp/lsp/types/params.py:178 | a string under `message` parses to itself |
| `LspParamsProps.ReferenceContextDefault` | slither_lsp/lsp/types/params.py:393-400 | `ReferenceContext()` has include_declaration False |
| `LspParamsProps.ReferenceParamsContextField` | slither_lsp/lsp/types/params.py:404-410 | ReferenceParams has five fields, the last `context` with a ReferenceContext factory, written under `context` |
| `LspParamsProps.ReferenceParamsWithoutContext` | slither_lsp/lsp/types/params.py:404-410 | a ReferenceParams dict without `context` parses, when it parses, with the default context |
| `LspParamsProps.CapabilitiesKey` | slither_lsp/lsp/types/params.py:76 | the capabilities field is written under `capabilities` |
| `LspParamsProps.InitializeFoldersKey` | slither_lsp/lsp/types/params.py:86 | the workspace_folders field is written under `workspaceFolders` |
| `LspParamsProps.InitializeDefaultValues` | slither_lsp/lsp/types/params.py:35-86 | each InitializeParams field's default: None for the plain optionals, the ClientCapabilities factory, and `[]` for the folders |
| `LspParamsProps.InitializeParamsFromEmpty` | slither_lsp/lsp/types/params.py:35-86 | `InitializeParams.from_dict({})` fills capabilities by its factory, workspace_folders with `[]` and every other field with None |
| `LspParamsProps.InitializeLaterNames` | slither_lsp/lsp/types/params.py:79-86 | the field names after capabilities are distinct from it and from each other |
| `LspParamsProps.InitializeParamsDefaults` | slither_lsp/lsp/types/params.py:35-86 | whatever else an initialize request gives, a missing `capabilities` or `workspaceFolders` key takes its default |
| `LspParamsProps.PublishDiagnosticsFromEmpty` | slither_lsp/lsp/types/params.py:322-331 | `PublishDiagnosticsParams.from_dict({})` has uri "", no version and no diagnostics |
| `LspParamsProps.PublishUriKey` | slither_lsp/lsp/types/params.py:329 | uri is written under `uri` |
| `LspParamsProps.PublishVersionKey` | slither_lsp/lsp/types/params.py:330 | version is written under `version` |
| `LspParamsProps.PublishDiagnosticsKey` | slither_lsp/lsp/types/params.py:331 | diagnostics is written under `diagnostics` |
| `LspParamsProps.PublishDiagnosticsKeys` | slither_lsp/lsp/types/params.py:322-331 | the three keys are distinct |
| `LspParamsProps.DiagnosticsOut` | slither_lsp/lsp/types/params.py:331 | the diagnostics are written as a list of their own `to_dict()` dicts, in order |
| `LspParamsProps.PublishDiagnosticsToDict` | slither_lsp/lsp/types/params.py:322-331 | without a version, only `uri` and `diagnostics` are written |
| `LspParamsProps.PublishDiagnosticsVersionToDict` | slither_lsp/lsp/types/params.py:322-331 | with a version, all three keys are written |
| `LspParamsProps.TextDocumentKey` | slither_lsp/lsp/types/params.py:342 | text_document is written under `textDocument` |
| `LspParamsProps.PositionKey` | slither_lsp/lsp/types/params.py:345 | position is written under `position` |
| `LspParamsProps.PositionParamsNames` | slither_lsp/lsp/types/params.py:335-345 | the position params field names are distinct |
| `LspParamsProps.PositionParamsShape` | slither_lsp/lsp/types/params.py:349-425 | every position request class has four fields in the order Python's MRO gives them: the partial result and work done tokens at 0 and 1, then `text_document` and `position` at 2 and 3 |
| `LspParamsProps.PositionParamsToDict` | slither_lsp/lsp/types/params.py:335-345 | without progress tokens, only `textDocument` and `position` are written, each as its own dict |
| `LspParamsProps.PositionParamsWithoutTextDocument` | slither_lsp/lsp/types/params.py:342 | a position request without `textDocument` fails with TypeError: `TextDocumentIdentifier()` lacks its uri |
| `LspParamsProps.PositionParamsWithoutPosition` | slither_lsp/lsp/types/params.py:345 | a position request without `position` fails with TypeError: `Position()` lacks line and character |
| `LspParamsProps.ContentChangesKey` | slither_lsp/lsp/types/params.py:263 | content_changes is written under `contentChanges` |
| `LspParamsProps.ContentChangesRejectedAsWritten` | slither_lsp/lsp/types/params.py:239-263 | as annotated (one TextDocumentContentChangeEvent), the array of changes a client sends is rejected with ValueError and the notification cannot be parsed |
| `LspParamsProps.SingleEventRejectsList` | slither_lsp/lsp/types/params.py:263 | a single-event field given a list value fails with ValueError |
| `LspParamsProps.ChangeEventKeys` | slither_lsp/lsp/types/params.py:218-235 | the change event is read from `text`, `range` and `rangeLength` |
| `LspParamsProps.ChangeEventArgs` | slither_lsp/lsp/types/params.py:218-235 | from `{"text": t}` each change event field takes t, None, None |
| `LspParamsProps.ChangeEventFromDict` | slither_lsp/lsp/types/params.py:218-235 | `TextDocumentContentChangeEvent.from_dict({"text": t})` is a change event without range |
| `LspParamsProps.ChangeEventParsed` | slither_lsp/lsp/types/params.py:218-235 | `{"text": t}`, as a list item, parses to a change event without range |
| `LspParamsProps.ContentChangesParsed` | slither_lsp/lsp/types/params.py:239-263 | with `List[TextDocumentContentChangeEvent]` the array of changes parses event by event, in order |
| `LspCapabilitiesProps.WorkspaceFoldersNoneFields` | slither_lsp/lsp/types/capabilities.py:89-106 | both WorkspaceFoldersServerCapabilities fields default to None |
| `LspCapabilitiesProps.WorkspaceServerDefault` | slither_lsp/lsp/types/capabilities.py:109-118 | `WorkspaceServerCapabilities()` holds a default WorkspaceFoldersServerCapabilities made by its factory |
| `LspCapabilitiesProps.ServerCapabilitiesDefault` | slither_lsp/lsp/types/capabilities.py:121-157 | `ServerCapabilities()`: every provider None, workspace built through two nested factories |
| `LspCapabilitiesProps.WorkspaceFoldersKey` | slither_lsp/lsp/types/capabilities.py:116-118 | workspace_folders is written under `workspaceFolders` |
| `LspCapabilitiesProps.WorkspaceKey` | slither_lsp/lsp/types/capabilities.py:157 | workspace is written under `workspace` |
| `LspCapabilitiesProps.WorkspaceServerDefaultToDict` | slither_lsp/lsp/types/capabilities.py:109-118 | `WorkspaceServerCapabilities().to_dict() == {'workspaceFolders': {}}` |
| `LspCapabilitiesProps.ServerCapabilitiesNames` | slither_lsp/lsp/types/capabilities.py:121-157 | the ServerCapabilities field names are distinct |
| `LspCapabilitiesProps.ServerCapabilitiesDefaultToDict` | slither_lsp/lsp/types/capabilities.py:121-157 | `ServerCapabilities().to_dict() == {'workspace': {'workspaceFolders': {}}}`: None providers are dropped |
| `LspCapabilitiesProps.ProviderBool` | slither_lsp/lsp/types/capabilities.py:133-154 | a provider given a bool is written as that bool and read back from it |
| `LspCapabilitiesProps.ProviderCandidates` | slither_lsp/lsp/types/capabilities.py:133-154 | the types tried for a provider that is not None are bool, then its options class |
| `LspCapabilitiesProps.ProviderOptionsWritten` | slither_lsp/lsp/types/capabilities.py:133-154 | a provider given an options instance is written as that instance's dict |
| `LspCapabilitiesProps.ProviderOptionsParsed` | slither_lsp/lsp/types/capabilities.py:133-154 | a provider given a dict is parsed as its options class |
| `LspCapabilitiesProps.ProviderOptionsFromEmpty` | slither_lsp/lsp/types/capabilities.py:12-86 | the provider options classes parsed from `{}` have work_done_progress None |
| `LspCapabilitiesProps.ChangeNotificationsValues` | slither_lsp/lsp/types/capabilities.py:98-106 | change_notifications accepts and writes exactly a str, a bool or None; anything else is a ValueError both ways |
| `LspCapabilitiesProps.ClientSectionsNoneFields` | slither_lsp/lsp/types/capabilities.py:461-475 | the three client capability sections' fields all default to None |
| `LspCapabilitiesProps.ClientSections` | slither_lsp/lsp/types/capabilities.py:461-475 | each section's factory builds its all-None default |
| `LspCapabilitiesProps.ClientCapabilitiesDefault` | slither_lsp/lsp/types/capabilities.py:461-475 | `ClientCapabilities()` and `ClientCapabilities.from_dict({})` fill every section with its default |
| `LspCapabilitiesProps.ShowDocumentSupportDefault` | slither_lsp/lsp/types/capabilities.py:164-172 | `ShowDocumentClientCapabilities()` and its `from_dict({})` have support False |
| `LspCapabilitiesProps.ValueSetKey` | slither_lsp/lsp/types/capabilities.py:203 | value_set is written under `valueSet` |
| `LspCapabilitiesProps.TagSupportFromEmpty` | slither_lsp/lsp/types/capabilities.py:195-203 | without `valueSet` the tag support lists no tag |
| `LspCapabilitiesProps.TagSupportParsed` | slither_lsp/lsp/types/capabilities.py:195-203 | a valueSet of DiagnosticTag integers parses into those members, in order |
| `LspRegistrationProps.WatchKindBits` | slither_lsp/lsp/types/registration_options.py:22-28 | CREATE, CHANGE and DELETE are distinct bits whose union is 7; a kind is a WatchKind exactly when it is at most 7 |
| `LspRegistrationProps.KindCandidates` | slither_lsp/lsp/types/registration_options.py:53-56 | the only type tried for a kind that is not None is WatchKind |
| `LspRegistrationProps.WatchKindWritten` | slither_lsp/lsp/types/registration_options.py:53-56 | a WatchKind member, as a watcher's kind, is written as its integer |
| `LspRegistrationProps.WatchKindNeverParses` | slither_lsp/lsp/types/registration_options.py:22-28 | WatchKind is an IntFlag, not an IntEnum: no JSON value but null parses as a kind |
| `LspRegistrationProps.DocumentSelectorKey` | slither_lsp/lsp/types/registration_options.py:16-19 | documentSelector is written under its own name and includes None |
| `LspRegistrationProps.DocumentSelectorWrittenAsNull` | slither_lsp/lsp/types/registration_options.py:9-19 | `TextDocumentRegistrationOptions(document_selector=None).to_dict() == {'documentSelector': None}` |
| `LspRegistrationProps.GlobPatternKey` | slither_lsp/lsp/types/registration_options.py:51 | glob_pattern is written under `globPattern` |
| `LspRegistrationProps.KindKey` | slither_lsp/lsp/types/registration_options.py:56 | kind is written under `kind` |
| `LspRegistrationProps.WatcherKeys` | slither_lsp/lsp/types/registration_options.py:31-56 | the watcher's two keys are distinct |
| `LspRegistrationProps.GlobPatternOut` | slither_lsp/lsp/types/registration_options.py:51 | the glob pattern is written as its string |
| `LspRegistrationProps.WatcherWithoutKindToDict` | slither_lsp/lsp/types/registration_options.py:31-56 | a watcher without kind is written with its glob pattern only |
| `LspRegistrationProps.WatcherWithKindToDict` | slither_lsp/lsp/types/registration_options.py:31-56 | a watcher with a kind is written with its glob pattern and the kind's integer |
| `LspRegistrationProps.WatcherWithKindNeverParses` | slither_lsp/lsp/types/registration_options.py:31-56 | a watcher dict that gives a kind cannot be parsed back |
| `LspRegistrationProps.WatchersToDict` | slither_lsp/lsp/types/registration_options.py:59-67 | the watchers are written under `watchers`, one by one, in order, each as its own `to_dict()` |
| `Errors.FirstWith` | slither_lsp/errors/lsp_errors.py:8-54 | the name found carries the value searched for; none is found only when no name carries it |
| `Errors.FirstWithIsFirst` | slither_lsp/errors/lsp_errors.py:8-54 | a value some name carries resolves to that name or to one declared before it |
| `Errors.FirstWithAt` | slither_lsp/errors/lsp_errors.py:8-54 | the search stops at the first name carrying the value |
| `Errors.Position` | slither_lsp/errors/lsp_errors.py:8-54 | every code name has a place in the declaration order |
| `Errors.MemberOfName` | slither_lsp/errors/lsp_errors.py:8-54 | every declared name resolves to a member with the same value |
| `Errors.JsonRpcCodes` | slither_lsp/errors/lsp_errors.py:14-19 | the five codes "Defined by JSON RPC" are exactly the ones section 5.1 of JSON-RPC 2.0 predefines, with their meanings |
| `Errors.ReservedRange` | slither_lsp/errors/lsp_errors.py:21-41 | ServerNotInitialized and UnknownErrorCode lie in -32099..-32000, which the range names bound, and only range names and those two do |
| `Errors.Aliases` | slither_lsp/errors/lsp_error.py:24-51 | serverErrorStart, serverErrorEnd and lspReservedErrorRangeEnd are aliases of earlier members (the legacy copy of the enum, identical in lsp_errors.py) |
| `Errors.LspReservedRange` | slither_lsp/errors/lsp_error.py:40-51 | ContentModified lies in the LSP reserved range, whose end equals RequestCancelled |
| `Errors.Canonical` | slither_lsp/errors/lsp_errors.py:8-54 | every name that is not an alias is its own member |
| `Errors.NewLspError` | slither_lsp/lsp/types/errors.py:58-66 | `LSPError(code, message)` keeps the code and the message, with data None |
| `Errors.NotSupportedMessageNames` | slither_lsp/errors/lsp_errors.py:76-83 | the method name sits right after the opening quote, so distinct methods give distinct messages |
| `Errors.CommandNotSupported` | slither_lsp/errors/lsp_errors.py:68-83 | `from_command` gives InternalError, no data and the not-supported message for the method |
| `Errors.CapabilitiesNotSupported` | slither_lsp/lsp/types/errors.py:69-90 | InternalError with the given data; the message is the not-supported text, followed by a space and the additional text when given |
| `Errors.NotSupportedAgree` | slither_lsp/lsp/types/errors.py:69-90 | with no data and no additional text, both generations of the error are equal |
| `StateCapabilities.Answer` | slither_lsp/state/capabilities.py:45-50 | a walk that raised raises; one that found nothing gives the default; a value of the wrong type gives the default |
| `StateCapabilities.SetPath` | slither_lsp/state/capabilities.py:52-79 | a successful set keeps every top-level key and has the path's first key |
| `StateCapabilities.Capabilities.constructor` | slither_lsp/state/capabilities.py:8-17 | the data is the given dict, or {} when None |
| `StateCapabilities.Capabilities.Server` | slither_lsp/state/capabilities.py:90-110 | the server capabilities start as the dict declaring workspace folders supported |
| `StateCapabilities.Capabilities.GetFromPath` | slither_lsp/state/capabilities.py:19-50 | the loop returns what the path walk gives, with the default and the type check applied |
| `StateCapabilities.Capabilities.SetAtPath` | slither_lsp/state/capabilities.py:52-79 | on success the data becomes the set dict; on an error the error is reported and the data is as it was |
| `StateCapabilities.RebuildStep` | slither_lsp/state/capabilities.py:60-79 | one more level of the walk puts the dict just left back as the innermost ancestor |
| `StateCapabilities.FollowPathIsLookup` | slither_lsp/state/capabilities.py:19-50 | where the walk does not raise, it finds what a plain nested lookup finds |
| `StateCapabilities.LookupIsFollowPath` | slither_lsp/state/capabilities.py:19-50 | a value the nested lookup finds is found by the walk without error |
| `StateCapabilities.GetThroughInt` | slither_lsp/state/capabilities.py:33-40 | reaching an int below the top level makes `key not in result` raise TypeError rather than return the default |
| `StateCapabilities.GetAfterSet` | slither_lsp/state/capabilities.py:19-79 | after a successful `set_at_path(p, v)`, `get_from_path(p)` finds v |
| `StateCapabilities.SetLeavesOthers` | slither_lsp/state/capabilities.py:52-79 | setting at p leaves the value at every path diverging from p unchanged |
| `StateCapabilities.EmptyLookup` | slither_lsp/state/capabilities.py:14-15 | nothing lies below a fresh {} |
| `StateCapabilities.SetPathFails` | slither_lsp/state/capabilities.py:63-72 | `set_at_path` raises exactly when a proper prefix of the path leads to something that is not a dict |
| `StateCapabilities.PrefixLookup` | slither_lsp/state/capabilities.py:33-43 | looking up a prefix from a dict is looking up the rest from the entry under its first key |
| `StateCapabilities.EmptyPath` | slither_lsp/state/capabilities.py:19-79 | the empty path reads the whole data, and a set at it changes nothing |
| `StateCapabilities.ServerSupportsFolders` | slither_lsp/state/capabilities.py:90-110 | `get_from_path(["workspace", "workspaceFolders", "supported"])` on the server capabilities is True |
| `JsonRpcIo.Ascii` | slither_lsp/lsp/io/jsonrpc_io.py:89-93 | the header text becomes one byte per character, with the character's code |
| `JsonRpcIo.EncodeChar` | slither_lsp/lsp/io/jsonrpc_io.py:83 | a character becomes one to four UTF-8 bytes, exactly one when it is ASCII |
| `JsonRpcIo.Utf8Length` | slither_lsp/lsp/io/jsonrpc_io.py:83-90 | the Content-Length (encoded length) is never below the character count, and equals it exactly for ASCII text |
| `JsonRpcIo.Decimal` | slither_lsp/lsp/io/jsonrpc_io.py:90 | `str(n)` is a non-empty run of digit bytes |
| `JsonRpcIo.DecimalValue` | slither_lsp/lsp/io/jsonrpc_io.py:57 | `int(str(n)) == n` |
| `JsonRpcIo.ContentLength` | slither_lsp/lsp/io/jsonrpc_io.py:52-57 | a length is found only on a line that starts with `Content-Length:` in any case |
| `JsonRpcIo.LengthLineParses` | slither_lsp/lsp/io/jsonrpc_io.py:89-93 | the Content-Length line `write` produces is one non-blank line that `CONTENT_LENGTH_REGEX` reads back as the body length |
| `JsonRpcIo.TypeLineParses` | slither_lsp/lsp/io/jsonrpc_io.py:89-93 | the Content-Type line is one non-blank line not read as a Content-Length |
| `JsonRpcIo.ScanLaidOut` | slither_lsp/lsp/io/jsonrpc_io.py:36-57 | header lines laid one after another, then a blank line: the loop folds them in order and stops after the blank line |
| `JsonRpcIo.ReadFrame` | slither_lsp/lsp/io/jsonrpc_io.py:25-101 | `read` of what `write` wrote gives back its two header lines and exactly the body, and consumes exactly the frame |
| `JsonRpcIo.ReadTwoLines` | slither_lsp/lsp/io/jsonrpc_io.py:25-68 | two header lines, the first giving the length, then the blank line: `read` returns both lines and the body |
| `JsonRpcIo.ReadBody` | slither_lsp/lsp/io/jsonrpc_io.py:61-68 | once the headers give a length the stream holds, `read` returns that many bytes after them |
| `JsonRpcIo.ScanStep` | slither_lsp/lsp/io/jsonrpc_io.py:36-57 | the header loop takes one whole line per turn: stop at a blank line, fail, or go on with the rest |
| `JsonRpcIo.SecondLength` | slither_lsp/lsp/io/jsonrpc_io.py:56 | a second Content-Length header fails the assertion |
| `JsonRpcIo.NoLengthNoBody` | slither_lsp/lsp/io/jsonrpc_io.py:59-62 | without a Content-Length header `read` returns None and consumes only the header lines and the blank line |
| `JsonRpcIo.JsonRpcStream.constructor` | slither_lsp/lsp/io/jsonrpc_io.py:19-23 | a fresh stream reads from the start of its input and has written nothing |
| `JsonRpcIo.JsonRpcStream.ReadLine` | slither_lsp/lsp/io/jsonrpc_io.py:38 | `readline()` returns the next line and advances past it |
| `JsonRpcIo.JsonRpcStream.ReadBytes` | slither_lsp/lsp/io/jsonrpc_io.py:65 | `read(n)` returns up to n bytes and advances past them |
| `JsonRpcIo.JsonRpcStream.ReadHeaders` | slither_lsp/lsp/io/jsonrpc_io.py:33-57 | the header loop collects the lines and the one Content-Length of the header scan, fails on a second Content-Length, and consumes exactly the bytes the scan reads |
| `JsonRpcIo.ReadWithBody` | slither_lsp/lsp/io/jsonrpc_io.py:61-68 | once the headers give a length, `read` returns the headers with the next `n` bytes, or the rest of a shorter stream, and consumes exactly those |
| `JsonRpcIo.JsonRpcStream.Read` | slither_lsp/lsp/io/jsonrpc_io.py:25-68 | the loop's result and the bytes consumed are those of the framing function |
| `JsonRpcIo.JsonRpcStream.Write` | slither_lsp/lsp/io/jsonrpc_io.py:70-101 | `write` appends exactly one frame of the UTF-8 text to the output, leaving the input alone |
| `ServerContexts.AnalysisRegistry.constructor` | slither_lsp/state/server_context.py:28-30 | a fresh registry holds no analysis and its counter is 0 |
| `ServerContexts.AnalysisRegistry.Register` | slither_lsp/state/server_context.py:32-45 | the id returned is the old counter, held by no registered analysis and above every earlier id; the counter moves on by one and only that id is added |
| `ServerContexts.AnalysisRegistry.Unregister` | slither_lsp/state/server_context.py:47-53 | the id is removed if present, nothing else changes, and the counter never goes back |
| `ServerContexts.AnalysisRegistry.Get` | slither_lsp/state/server_context.py:55-61 | the registered instance exactly when the id is registered, else None |
| `ServerContexts.LegacyContext.constructor` | slither_lsp/state/server_context.py:10-30 | the legacy context starts uninitialised, trace off, with no client info, {} capabilities, no folders, no callbacks and an empty registry |
| `ServerContexts.LegacyContext.SetServerInitialized` | slither_lsp/state/server_context.py:67-72 | the flag is stored, and the callback fires once exactly when setting True with one registered |
| `ServerContexts.LegacyContext.SetClientInitialized` | slither_lsp/state/server_context.py:78-83 | the flag is stored, and the callback fires once exactly when setting True with one registered |
| `ServerContexts.ServerInfo` | slither_lsp/lsp/state/server_context.py:77-82 | the server info is a ClientServerInfo of the fixed name 'Slither Language Server' and the slither-lsp package's version |
| `ServerContexts.LspContext.constructor` | slither_lsp/lsp/state/server_context.py:11-28 | the typed context starts uninitialised, with default client capabilities, the given server capabilities or the defaults, no folders and an empty registry |
| `Initialize.TraceAfter` | slither_lsp/command_handlers/lifecycle/initialize.py:34-37 | the trace becomes the given value exactly when it is a str, and is otherwise kept |
| `Initialize.Kept` | slither_lsp/command_handlers/lifecycle/initialize.py:43-47 | the positions kept are, in increasing order, exactly those of the entries passing the test |
| `Initialize.KeptNone` | slither_lsp/command_handlers/lifecycle/initialize.py:43-47 | nothing is kept when no entry passes |
| `Initialize.LegacyClientInfo` | slither_lsp/command_handlers/lifecycle/initialize.py:28-32 | client_info is set exactly when clientInfo is a dict, to its name and version |
| `Initialize.FolderComprehension` | slither_lsp/command_handlers/lifecycle/initialize.py:43-47 | the comprehension raises AttributeError exactly when some listed entry is not a dict |
| `Initialize.ComprehensionKeeps` | slither_lsp/command_handlers/lifecycle/initialize.py:43-47 | the comprehension keeps exactly the entries with a truthy uri, in order, each as a folder of its name and uri |
| `Initialize.LegacyFoldersFallBack` | slither_lsp/command_handlers/lifecycle/initialize.py:39-55 | the kept entries become the folders; when none is kept, a str rootUri becomes the only folder |
| `Initialize.LegacyFoldersFail` | slither_lsp/command_handlers/lifecycle/initialize.py:41-47 | the folders cannot be built exactly when workspaceFolders is a list holding a non-dict, and the error is AttributeError |
| `Initialize.ReadFolders` | slither_lsp/command_handlers/lifecycle/initialize.py:39-55 | the step-by-step folder computation yields exactly the folders LegacyFolders describes, or AttributeError |
| `Initialize.ReadClientInfo` | slither_lsp/command_handlers/lifecycle/initialize.py:28-32 | the client info read from the params is the one LegacyClientInfo describes |
| `Initialize.ReadTrace` | slither_lsp/command_handlers/lifecycle/initialize.py:34-37 | the trace read from the params is the one TraceAfter describes |
| `Initialize.LegacyInitialize` | slither_lsp/command_handlers/lifecycle/initialize.py:19-72 | non-dict params raise InvalidParams and change nothing; otherwise client info and trace are stored, then either AttributeError with no folders, or the folders, the capabilities, the initialised flag (firing its callback) and the reply |
| `Initialize.StrUrisKeep` | slither_lsp/command_handlers/lifecycle/initialize_handler.py:39-47 | the loop appends exactly the str uris of the dict entries, in order |
| `Initialize.StrUrisMembers` | slither_lsp/command_handlers/lifecycle/initialize_handler.py:39-47 | a uri is collected exactly when some dict entry carries it as a str |
| `Initialize.UrisFallBack` | slither_lsp/command_handlers/lifecycle/initialize_handler.py:49-53 | without any str uri among the folders, the uris are the str rootUri alone, or none |
| `Initialize.ReadUris` | slither_lsp/command_handlers/lifecycle/initialize_handler.py:39-53 | the folder loop and the rootUri fallback yield exactly the uris UrisAfter describes |
| `Initialize.InitializeUris` | slither_lsp/command_handlers/lifecycle/initialize_handler.py:17-69 | non-dict params raise InvalidParams and change nothing; otherwise client name and version, trace, uris and the initialised flag are stored and the reply returned |
| `Initialize.Len` | slither_lsp/lsp/request_handlers/lifecycle/initialize.py:28 | `len` of a str, list or dict; anything else raises TypeError |
| `Initialize.TypedFoldersFallBack` | slither_lsp/lsp/request_handlers/lifecycle/initialize.py:26-32 | a non-empty parsed folder list is kept; an empty one becomes the root uri's folder when there is a root uri |
| `Initialize.InitializeResultOf` | slither_lsp/lsp/request_handlers/lifecycle/initialize.py:37-38 | the result holds exactly the server capabilities and the server info |
| `Initialize.ServerInfoAgrees` | slither_lsp/lsp/request_handlers/lifecycle/initialize.py:37-49 | the typed reply's server info is written as a name and version dict carrying the slither-lsp version; it equals the legacy replies' `serverInfo`, which carries the slither-analyzer version, exactly when the two versions are equal |
| `Initialize.TypedInitialize` | slither_lsp/lsp/request_handlers/lifecycle/initialize.py:17-49 | params that do not parse raise and change nothing; parsed ones are stored, folders fall back to the root uri, the flag is set, the event emitted and `result.to_dict()` returned |
| `Initialize.ReadTypedFolders` | slither_lsp/lsp/request_handlers/lifecycle/initialize.py:27-32 | the folder steps yield the listed folders or an empty list, then exactly the folders TypedFolders defines, or the TypeError of `len` |
| `Initialize.StoreParsed` | slither_lsp/lsp/request_handlers/lifecycle/initialize.py:22-49 | after parsing, the state and the outcome are those `Stored` describes, including the TypeError of `len` on a non-sized folder value |
| `AnalysisCreate.TargetTypeOf` | slither_lsp/command_handlers/slither/analysis_create.py:14-19 | `CompilationSettingsTargetType(v)` succeeds only with a member whose value is v, and otherwise raises ValueError |
| `AnalysisCreate.TargetTypeOfValue` | slither_lsp/command_handlers/slither/analysis_create.py:14-19 | every member is found again from its value |
| `AnalysisCreate.MissingError` | slither_lsp/command_handlers/slither/analysis_create.py:31-66 | the three missing-key errors are InvalidParams with no data |
| `AnalysisCreate.Create` | slither_lsp/command_handlers/slither/analysis_create.py:29-90 | a checked request registers the analysis built from it under the counter's id and replies `{"analysisId": id}`; a rejection or an exception changes no registry |
| `AnalysisCreate.NonContainerFails` | slither_lsp/command_handlers/slither/analysis_create.py:32 | params that support neither `in` nor indexing make the first check raise TypeError |
| `AnalysisCreate.SettingsRequired` | slither_lsp/command_handlers/slither/analysis_create.py:31-37 | a dict is rejected with the compilation-settings error exactly when it lacks `compilationSettings` |
| `AnalysisCreate.OnlyDictsAccepted` | slither_lsp/command_handlers/slither/analysis_create.py:31-45 | a list or a str params never yields a request |
| `AnalysisCreate.TypeRequired` | slither_lsp/command_handlers/slither/analysis_create.py:47-53 | the missing-type error is raised exactly when the settings have no `type` |
| `AnalysisCreate.UnknownTypeFails` | slither_lsp/command_handlers/slither/analysis_create.py:55-56 | a type naming neither target type raises ValueError |
| `AnalysisCreate.TargetRequired` | slither_lsp/command_handlers/slither/analysis_create.py:60-67 | a basic target is rejected with the missing-target error exactly when `basic` or its `target` is missing |
| `AnalysisCreate.StandardJsonKeyRequired` | slither_lsp/command_handlers/slither/analysis_create.py:72-76 | a standard-JSON target without its `solc_standard_json` key raises KeyError, not InvalidParams |
| `AnalysisCreate.AcceptedExactly` | slither_lsp/command_handlers/slither/analysis_create.py:29-76 | a dict yields a request exactly when its settings are a dict with a known type and the key that type needs; the request carries that key's value and `params['cwd']` or the process's directory |
| `Dispatcher.NoHandler` | slither_lsp/servers/base_server.py:94-101 | a missing handler is MethodNotFound with no data |
| `Dispatcher.Unhandled` | slither_lsp/servers/base_server.py:111-118 | any other exception becomes InternalError carrying the traceback as data |
| `Dispatcher.DecimalText` | slither_lsp/servers/base_server.py:185 | `str(n)` as characters, digit for digit the decimal bytes |
| `Dispatcher.RequestIdInjective` | slither_lsp/servers/base_server.py:183-191 | distinct counters give distinct `slither-lsp-N` ids, so a new request id never collides with a pending one |
| `Dispatcher.Refusal` | slither_lsp/servers/base_server.py:77-101 | no refusal exactly when the method is a str, the shutdown test lets the message through and a handler exists |
| `Dispatcher.BaseServer.constructor` | slither_lsp/servers/base_server.py:58-246 | a fresh server keeps the shutdown test it is given (the written one or the intended one), has no pending request, counter 0, and has written, invoked and called back nothing |
| `Dispatcher.BaseServer.OnMessageReceived` | slither_lsp/servers/base_server.py:58-169 | what is written, which handler runs and which callback runs are those the dispatch function gives under this server's shutdown test; built with `NotificationsAfterShutdown` it is the code as written |
| `Dispatcher.BaseServer.ReceiveRequest` | slither_lsp/servers/base_server.py:75-138 | the handler call and the reply or error written are those of the request branch under this server's shutdown test |
| `Dispatcher.BaseServer.Admit` | slither_lsp/servers/base_server.py:78-101 | the checks give exactly the refusal of the request branch under this server's shutdown test: notifications after shutdown as written, requests as intended |
| `Dispatcher.BaseServer.ReceiveResponse` | slither_lsp/servers/base_server.py:140-169 | the callback run, or the ValueError escaping, is that of the response branch |
| `Dispatcher.BaseServer.SendRequest` | slither_lsp/servers/base_server.py:171-199 | the id is the next `slither-lsp-N`, not already pending; it is registered with its callbacks before the request is written, and the counter moves on |
| `Dispatcher.BaseServer.SendNotification` | slither_lsp/servers/base_server.py:171-199 | exactly one notification message is written |
| `Dispatcher.NonDictIgnored` | slither_lsp/servers/base_server.py:65-68 | a message that is not a dict is dropped: nothing runs, nothing is written |
| `Dispatcher.MethodSelectsBranch` | slither_lsp/servers/base_server.py:74-75 | with a `method` key no callback runs; without one no handler runs and nothing is written |
| `Dispatcher.NonStringMethod` | slither_lsp/servers/base_server.py:78-84 | a method that is not a str gets InvalidRequest and no handler runs |
| `Dispatcher.UnknownMethod` | slither_lsp/servers/base_server.py:94-101 | a str method without a handler gets MethodNotFound naming it |
| `Dispatcher.HandlerReached` | slither_lsp/servers/base_server.py:102-126 | the handler is called once with the params; a return is answered only with an id, an LSPError is sent unchanged, any other exception becomes InternalError |
| `Dispatcher.SilentExactly` | slither_lsp/servers/base_server.py:123-138 | nothing is written back exactly when a notification's handler returns; errors are written even without an id |
| `Dispatcher.ShutdownGuardAsWritten` | slither_lsp/servers/base_server.py:86-92 | as written, after shutdown the `exit` notification is refused with InvalidRequest and never handled, while a request with an id still reaches its handler |
| `Dispatcher.ShutdownGuardIntended` | slither_lsp/servers/base_server.py:86-92 | with the test the comment describes, every request after shutdown is refused and every notification with a handler still reaches it |
| `Dispatcher.GuardsAgreeBeforeShutdown` | slither_lsp/servers/base_server.py:86-92 | before shutdown neither test refuses anything |
| `Dispatcher.UnknownResponseIgnored` | slither_lsp/servers/base_server.py:140-146 | a response whose id is not a pending str id changes nothing |
| `Dispatcher.SuccessResponse` | slither_lsp/servers/base_server.py:166-169 | a response without an error goes to the success callback, if any, with its `result` |
| `Dispatcher.FailureResponse` | slither_lsp/servers/base_server.py:151-165 | an error reaches the failure callback exactly when it is a dict with an int code and a str message and a failure callback exists; an unknown code raises ValueError |
| `Dispatcher.ErrorResponseReadBack` | slither_lsp/servers/base_server.py:151-165 | an error response written the way the server writes its own is read back into the same code, message and data |
| `LegacyCodec.Fill` | slither_lsp/types/base_serializable_structure.py:25-29 | construction succeeds exactly when every field has an argument or a default; it then sets exactly the fields, each given argument unchanged; otherwise TypeError |
| `LegacyCodec.ConstructWithAll` | slither_lsp/types/base_serializable_structure.py:29 | keyword construction with an argument for every field and no other sets exactly those attributes |
| `LegacyCodec.EnumOf` | slither_lsp/types/lsp_params.py:193-200 | `TraceValue(v)` / `MessageType(v)` succeeds exactly for a member value or a member, giving that member; otherwise ValueError |
| `LegacyCodec.FromDictEachSucceeds` | slither_lsp/types/lsp_params.py:388-392 | the parsing comprehension succeeds exactly when every item parses |
| `LegacyCodec.FromDictEachLength` | slither_lsp/types/lsp_params.py:388-392 | a successful parsing comprehension gives one result per item |
| `LegacyCodec.FromDictEachItem` | slither_lsp/types/lsp_params.py:388-392 | each place holds its own item's parse |
| `LegacyCodec.FromDictEachFirstError` | slither_lsp/types/lsp_params.py:388-392 | a failing comprehension raises its first failing item's exception |
| `LegacyCodec.ToDictEachSucceeds` | slither_lsp/types/lsp_params.py:406-420 | the writing comprehension succeeds exactly when every item writes |
| `LegacyCodec.ToDictEachLength` | slither_lsp/types/lsp_params.py:406-420 | a successful writing comprehension gives one dict per item |
| `LegacyCodec.ToDictEachItem` | slither_lsp/types/lsp_params.py:406-420 | each place holds its own item's dict |
| `LegacyCodec.ToDictEachFirstError` | slither_lsp/types/lsp_params.py:406-420 | a failing writing comprehension raises its first failing item's exception |
| `LegacyCodec.EachRoundTrip` | slither_lsp/types/lsp_params.py:383-420 | a list of objects that each round-trip is given back by parsing the list of their dicts |
| `LegacyCodec.FromDict` | slither_lsp/types/base_serializable_structure.py:17-29 | `from_dict` gives exactly what the functional reading gives: the hook's arguments, then the construction, or the exception |
| `LegacyCodec.InitArgsFromDict` | slither_lsp/types/base_serializable_structure.py:31-40 | running a hook's statements in place leaves in `init_args` what the functional reading stores, or raises its exception |
| `LegacyCodec.ReadStepValue` | slither_lsp/types/lsp_capabilities.py:29-37 | one hook statement stores the value the functional reading gives |
| `LegacyCodec.FromDictList` | slither_lsp/types/lsp_params.py:388-392 | the list comprehension of `from_dict` calls is the functional comprehension |
| `LegacyCodec.ToDict` | slither_lsp/types/base_serializable_structure.py:42-50 | `to_dict(result)` writes into the given dict or a fresh one, and its contents and exception are the functional writing's |
| `LegacyCodec.WriteFields` | slither_lsp/types/lsp_capabilities.py:39-50 | a `to_dict` hook's statements, run in place, leave what the functional writing gives |
| `LegacyCodec.WriteStepValue` | slither_lsp/types/lsp_capabilities.py:39-50 | one `to_dict` statement writes what the functional writing gives; an `int(...)` statement (lsp_params.py:241, 362) writes the int `int()` gives for an int or int text, and raises its ValueError or TypeError otherwise |
| `LegacyCodec.NestedDict` | slither_lsp/types/lsp_capabilities.py:74-85 | `v.to_dict()` of a nested object is the functional writing of it into a fresh dict |
| `LegacyCodec.ToDictList` | slither_lsp/types/lsp_params.py:406-420 | the list comprehension of `to_dict` calls is the functional comprehension |
| `LegacyTypes.ChainedConstruction` | tests/test_serializable_structure.py:20-34 | `TestClassB(num, num2)` sets exactly the two attributes |
| `LegacyTypes.ChainedRoundTrip` | tests/test_serializable_structure.py:20-52 | B writes A's key and its own, and parsing that output gives the same object back |
| `LegacyTypes.ParentNeedsDict` | tests/test_serializable_structure.py:8-18 | A's own `to_dict` writes into `result` without creating one, so called with none it raises TypeError |
| `LegacyTypes.OmitNone` | slither_lsp/types/lsp_capabilities.py:39-50 | dropping None entries keeps exactly the keys whose value is not None, with their values |
| `LegacyTypes.OmitNoneSet` | slither_lsp/types/lsp_capabilities.py:39-50 | adding a new key then dropping None entries is writing it unless it is None |
| `LegacyTypes.OmitNoneGet` | slither_lsp/types/lsp_capabilities.py:29-37 | dropping None entries is invisible to `.get` |
| `LegacyTypes.WorkspaceFoldersWrites` | slither_lsp/types/lsp_capabilities.py:39-50 | WorkspaceFoldersServerCapabilities writes each attribute that is not None |
| `LegacyTypes.WorkspaceFoldersReads` | slither_lsp/types/lsp_capabilities.py:29-37 | it reads `supported` and `changeNotifications` with `.get`, ignoring other keys |
| `LegacyTypes.WorkspaceFoldersRoundTrip` | slither_lsp/types/lsp_capabilities.py:10-50 | it reads back the keys it writes, so every instance round-trips |
| `LegacyTypes.WorkspaceServerReads` | slither_lsp/types/lsp_capabilities.py:62-72 | WorkspaceServerCapabilities parses `workspaceFolders` when present and not None, else None |
| `LegacyTypes.WorkspaceServerWrites` | slither_lsp/types/lsp_capabilities.py:74-85 | it writes `workspaceFolders` only when not None, as the nested dict |
| `LegacyTypes.WorkspaceServerRoundTrip` | slither_lsp/types/lsp_capabilities.py:53-85 | when the nested object round-trips (or is None), so does the outer one |
| `LegacyTypes.ServerCapabilitiesReads` | slither_lsp/types/lsp_capabilities.py:97-107 | ServerCapabilities parses the value under the key its hook reads when present and not None |
| `LegacyTypes.ServerCapabilitiesWrites` | slither_lsp/types/lsp_capabilities.py:109-117 | it writes `workspace` only when not None, as the nested dict |
| `LegacyTypes.ServerCapabilitiesLosesWorkspace` | slither_lsp/types/lsp_capabilities.py:97-117 | as written, the hook reads `support` but `to_dict` writes `workspace`: any workspace capabilities are lost in a round trip |
| `LegacyTypes.ServerCapabilitiesRoundTrip` | slither_lsp/types/lsp_capabilities.py:97-117 | reading the key it writes, ServerCapabilities round-trips whenever its workspace does |
| `LegacyTypes.ShowDocumentWrites` | slither_lsp/types/lsp_capabilities.py:144-152 | ShowDocumentClientCapabilities always writes `support`, None included |
| `LegacyTypes.ShowDocumentReads` | slither_lsp/types/lsp_capabilities.py:135-142 | it takes `support` with `.get`, so a dict without it gives None, not the declared default False |
| `LegacyTypes.ShowDocumentRoundTrip` | slither_lsp/types/lsp_capabilities.py:125-152 | every ShowDocumentClientCapabilities round-trips |
| `LegacyTypes.WindowReads` | slither_lsp/types/lsp_capabilities.py:176-187 | WindowClientCapabilities copies `workDoneProgress` and parses `showDocument` unless None |
| `LegacyTypes.WindowWrites` | slither_lsp/types/lsp_capabilities.py:189-202 | it writes each attribute that is not None, the nested one as its dict |
| `LegacyTypes.WindowRoundTrip` | slither_lsp/types/lsp_capabilities.py:155-202 | it round-trips whenever its nested show-document capabilities do |
| `LegacyTypes.WorkspaceClientReads` | slither_lsp/types/lsp_capabilities.py:234-244 | WorkspaceClientCapabilities reads its four keys with `.get` |
| `LegacyTypes.WorkspaceClientWrites` | slither_lsp/types/lsp_capabilities.py:246-263 | it writes each attribute that is not None |
| `LegacyTypes.WorkspaceClientRoundTrip` | slither_lsp/types/lsp_capabilities.py:205-263 | every WorkspaceClientCapabilities round-trips |
| `LegacyTypes.ClientCapabilitiesReads` | slither_lsp/types/lsp_capabilities.py:279-294 | ClientCapabilities parses `workspace` then `window`, each unless None |
| `LegacyTypes.ClientCapabilitiesDefaultsUnused` | slither_lsp/types/lsp_capabilities.py:266-294 | a client sending neither key gets None for both, not the declared default objects |
| `LegacyTypes.ClientCapabilitiesWrites` | slither_lsp/types/lsp_capabilities.py:296-311 | it writes each nested capability object that is not None, as its dict |
| `LegacyTypes.ClientCapabilitiesRoundTrip` | slither_lsp/types/lsp_capabilities.py:266-311 | it round-trips whenever its nested capabilities do |
| `LegacyTypes.WorkDoneProgressReads` | slither_lsp/types/lsp_params.py:21-28 | WorkDoneProgressParams reads `workDoneToken` with `.get` |
| `LegacyTypes.WorkDoneProgressWrites` | slither_lsp/types/lsp_params.py:30-42 | it writes the token unless None |
| `LegacyTypes.WorkDoneProgressRoundTrip` | slither_lsp/types/lsp_params.py:11-42 | every WorkDoneProgressParams round-trips |
| `LegacyTypes.InitializeParamsHeadReads` | slither_lsp/types/lsp_params.py:108-118 | the first six statements copy four keys and parse `clientInfo` when it is a dict |
| `LegacyTypes.InitializeParamsTailReads` | slither_lsp/types/lsp_params.py:120-133 | the last three parse `capabilities` always, `trace` when a str and `workspaceFolders` when a list |
| `LegacyTypes.InitializeParamsReads` | slither_lsp/types/lsp_params.py:101-133 | the whole hook is the field-by-field reading |
| `LegacyTypes.InitializeParamsFieldNames` | slither_lsp/types/lsp_params.py:45-98 | InitializeParams declares its nine fields in order |
| `LegacyTypes.InitializeParamsNeedCapabilities` | slither_lsp/types/lsp_params.py:120 | a request without `capabilities` makes `ClientCapabilities.from_dict(None)` raise AttributeError |
| `LegacyTypes.InitializeParamsRejectClientInfo` | slither_lsp/types/lsp_params.py:110-113 | a `clientInfo` dict reaches ClientServerInfo, whose hooks are the base class's, and raises NotImplementedError |
| `LegacyTypes.InitializeParamsTraceAndFolders` | slither_lsp/types/lsp_params.py:122-133 | a `trace` str naming no TraceValue raises ValueError; otherwise parsing succeeds exactly when `workspaceFolders` is not a non-empty list |
| `LegacyTypes.ParseOnlyClasses` | slither_lsp/types/lsp_params.py:135-142 | the parse-only classes' `to_dict` raises NotImplementedError |
| `LegacyTypes.WriteOnlyClasses` | slither_lsp/types/lsp_params.py:158-165 | the write-only classes' `_init_args_from_dict` raises NotImplementedError |
| `LegacyTypes.InitializeResultWrites` | slither_lsp/types/lsp_params.py:167-180 | InitializeResult writes `capabilities` as a dict, then `serverInfo` unless None |
| `LegacyTypes.InitializeResultRejectsServerInfo` | slither_lsp/types/lsp_params.py:167-180 | a ClientServerInfo server info raises NotImplementedError after `capabilities` is already written |
| `LegacyTypes.SetTraceReads` | slither_lsp/types/lsp_params.py:193-200 | SetTraceParams looks `value` up in TraceValue, so a missing or unknown value raises ValueError |
| `LegacyTypes.MessageParamsWrites` | slither_lsp/types/lsp_params.py:234-246 | ShowMessageParams and LogMessageParams write `type` as `int(self.type)` and `message`; a type `int()` refuses raises its error (ValueError for text, TypeError otherwise) before anything is written |
| `LegacyTypes.MessageParamsTextType` | slither_lsp/types/lsp_params.py:241 | a type given as the text `str(n)` is written as the int n |
| `LegacyTypes.MessageParamsBadType` | slither_lsp/types/lsp_params.py:355-366 | a type that is text but no int raises ValueError, and one that is neither int nor str raises TypeError, with nothing written |
| `LegacyTypes.ShowDocumentParamsWrites` | slither_lsp/types/lsp_params.py:285-302 | ShowDocumentParams writes `uri`, then each optional attribute that is not None |
| `LegacyTypes.ShowDocumentParamsRejectsSelection` | slither_lsp/types/lsp_params.py:285-302 | a Range selection raises NotImplementedError after the other keys are written |
| `LegacyTypes.ShowDocumentResultReads` | slither_lsp/types/lsp_params.py:315-322 | ShowDocumentResult reads `success` with `.get` |
| `LegacyTypes.FoldersChangeReads` | slither_lsp/types/lsp_params.py:383-404 | WorkspaceFoldersChangeEvent parses `added` then `removed` item by item when each is a list |
| `LegacyTypes.FoldersChangeNeedsFolderHooks` | slither_lsp/types/lsp_params.py:383-404 | with the base class's hooks for WorkspaceFolder, an event parses exactly when neither side lists a folder |
| `LegacyTypes.FoldersChangeWrites` | slither_lsp/types/lsp_params.py:406-420 | it writes `added` then `removed` as lists of dicts when each is a list |
| `LegacyTypes.FoldersChangeWriteNeedsFolderHooks` | slither_lsp/types/lsp_params.py:406-420 | with the base class's `to_dict` for WorkspaceFolder, an event writes exactly when both lists are empty |
| `LegacyTypes.FoldersChangeRoundTrip` | slither_lsp/types/lsp_params.py:370-420 | an event whose folders each round-trip round-trips itself |
| `LegacyTypes.DidChangeFoldersReads` | slither_lsp/types/lsp_params.py:433-443 | DidChangeWorkspaceFoldersParams parses `event` unless None |
| `PyInts.PyInt` | slither_lsp/types/lsp_params.py:241 | `int(v)`: an int is itself; a str succeeds exactly when its stripped text is an optional sign then digit groups, else ValueError; anything else is TypeError |
| `PyInts.IntOfStr` | slither_lsp/types/lsp_params.py:362 | `int(str(n)) == n` for every int, negative ones included |
| `PyInts.IntTextLeadingSpace` | slither_lsp/types/lsp_params.py:241 | whitespace before the text does not change what `int()` reads |
| `PyInts.IntTextTrailingSpace` | slither_lsp/types/lsp_params.py:241 | whitespace after the text does not change what `int()` reads |
| `PyInts.IntTextPlus` | slither_lsp/types/lsp_params.py:241 | a leading `+` is accepted: `int("+" + str(n)) == n` |
| `PyInts.IntTextLeadingZero` | slither_lsp/types/lsp_params.py:241 | a leading zero is accepted and changes nothing |
| `PyInts.IntTextRejectsForeign` | slither_lsp/types/lsp_params.py:241 | a character that is no digit, underscore, sign or whitespace makes `int()` raise ValueError |
| `PyInts.IntTextRejectsUnderscore` | slither_lsp/types/lsp_params.py:241 | an underscore not followed by a digit makes `int()` raise ValueError |
| `PyInts.IntTextRejectsEmpty` | slither_lsp/types/lsp_params.py:241 | blank text, or a sign alone, is no int |
| `PyInts.IntOfLetter` | slither_lsp/types/lsp_params.py:362 | `int("x")` raises ValueError |
| `AppTypes.PosRoundTrip` | slither_lsp/app/request_handlers/types.py:9-18 | `to_pos(to_lsp_pos(p)) == p` for every (line, character) tuple |
| `AppTypes.PositionRoundTrip` | slither_lsp/app/request_handlers/types.py:9-18 | `to_lsp_pos(to_pos(q))` has the line and character of `q` |
| `AppTypes.PosRangeRoundTrip` | slither_lsp/app/request_handlers/types.py:13-22 | `to_range(to_lsp_range(r)) == r` |
| `AppTypes.RangeRoundTrip` | slither_lsp/app/request_handlers/types.py:13-22 | `to_lsp_range(to_range(q)) == q` |
| `AppTypes.RangeOrderKept` | slither_lsp/app/request_handlers/types.py:13-22 | both range conversions keep the start first and the end second |
| `AppTypes.ToRangeInjective` | slither_lsp/app/request_handlers/types.py:21-22 | two ranges with the same tuple are the same range, and conversely |
| `AppTypes.Client.constructor` | slither_lsp/app/slither_server.py:92-97 | a fresh connection has published nothing and shown nothing |
| `AppTypes.Client.Publish` | slither_lsp/app/feature_analyses/slither_diagnostics.py:114-116 | each `publish_diagnostics(uri, diagnostics)` is appended to what the client received, in order |
| `AppTypes.Client.Show` | slither_lsp/app/slither_server.py:165-168 | each `show_message(text, type)` is appended to what the client was shown, in order |
| `AppRanges.SourceToRange` | slither_lsp/app/utils/ranges.py:17-34 | start line is `lines[0]-1` and end line `lines[-1]-1`; each character is its column minus 1, clamped at 0 |
| `AppRanges.SourceToLocation` | slither_lsp/app/utils/ranges.py:37-48 | the URI of the source's file paired with `source_to_range` of the same source |
| `AppRanges.NameRange` | slither_lsp/app/utils/ranges.py:51-64 | one line, the definition's first line minus 1, starting at its column minus 1 and exactly `len(name)` wide |
| `AppRanges.NameRangeNotClamped` | slither_lsp/app/utils/ranges.py:56-59 | unlike `source_to_range`, a definition in column 0 or before gives a negative start character |
| `FilePaths.LastIndexOf` | slither_lsp/app/utils/file_paths.py:8 | the index of the last occurrence of a character, or -1 when there is none |
| `FilePaths.LowerSol` | slither_lsp/app/utils/file_paths.py:9 | an extension lowers to ".sol" exactly when it is ".sol" spelled in any case |
| `FilePaths.SolSpellingDots` | slither_lsp/app/utils/file_paths.py:8-9 | such an extension holds no slash and its only dot is its first character |
| `FilePaths.ExtensionOfSuffix` | slither_lsp/app/utils/file_paths.py:8 | `splitext` gives the final dotted suffix, except when the file name before it is only dots |
| `FilePaths.SolidityFileIff` | slither_lsp/app/utils/file_paths.py:7-9 | a path is a Solidity file exactly when its last four characters lower to ".sol" and the file name before them is not only dots |
| `FilePaths.SampleSolidityFiles` | slither_lsp/app/utils/file_paths.py:7-9 | "A.SOL" is a Solidity file; a hidden file named ".sol" is not |
| `FilePaths.JoinPrefix` | slither_lsp/app/utils/file_paths.py:34 | the folder is a prefix of every path joined under it |
| `FilePaths.ExtensionOfBaseName` | slither_lsp/app/utils/file_paths.py:8 | the extension depends only on the last path component |
| `FilePaths.JoinKeepsSolidity` | slither_lsp/app/utils/file_paths.py:34-36 | joining an entry to its folder does not change whether it names a Solidity file |
| `FilePaths.ListDir` | slither_lsp/app/utils/file_paths.py:33 | `os.listdir` gives a directory's entries and fails only with OSError |
| `FilePaths.PrefixError` | slither_lsp/app/utils/file_paths.py:32-43 | an exception raised for an earlier folder is the exception of the whole search |
| `FilePaths.EntriesPrefixError` | slither_lsp/app/utils/file_paths.py:33-43 | an exception raised for an earlier entry is the exception of the whole listing |
| `FilePaths.SingleFolder` | slither_lsp/app/utils/file_paths.py:42 | searching the one-folder list `[full_path]` finds what that folder's listing holds |
| `FilePaths.EntryShrinks` | slither_lsp/app/utils/file_paths.py:38-43 | the recursive call searches a strictly smaller tree, so the search ends |
| `FilePaths.GetSolidityFiles` | slither_lsp/app/utils/file_paths.py:22-46 | the loop over folders and entries returns exactly the files FoldersFiles defines, or its OSError |
| `FilePaths.SearchEntry` | slither_lsp/app/utils/file_paths.py:34-44 | one listed entry contributes exactly what EntryFiles defines: a Solidity file itself, a searched directory's files or its error, otherwise nothing |
| `FilePaths.FoundAreSolidityFiles` | slither_lsp/app/utils/file_paths.py:31-46 | every path returned is a Solidity file lying under one of the given folders |
| `FilePaths.DirectFilesFound` | slither_lsp/app/utils/file_paths.py:33-37 | a Solidity file listed directly in a given folder is always returned, recursive or not |
| `FilePaths.NonRecursiveFindsListedFiles` | slither_lsp/app/utils/file_paths.py:38 | without recursion the search never fails below the folders and returns only files listed directly in them |
| `FilePaths.NodeModulesSkipped` | slither_lsp/app/utils/file_paths.py:40 | replacing the contents of a `node_modules` directory by anything changes nothing found |
| `FilePaths.FolderErrorsAreOSError` | slither_lsp/app/utils/file_paths.py:33 | the only exception a search raises is OSError |
| `FilePaths.UnlistableFolderFails` | slither_lsp/app/utils/file_paths.py:32-33 | one given folder that cannot be listed makes the whole search raise OSError |
| `OrderedDicts.Empty` | slither_lsp/app/feature_analyses/slither_diagnostics.py:42 | `{}` has no keys and no values |
| `OrderedDicts.Put` | slither_lsp/app/slither_server.py:223-229 | `d[k] = v` sets the value; a present key keeps its place and a new key goes last |
| `OrderedDicts.Pop` | slither_lsp/app/slither_server.py:249 | `d.pop(k, None)` removes the key and its value and keeps the other keys' order |
| `OrderedDicts.ValueList` | slither_lsp/app/slither_server.py:82-83 | `list(d.values())` lists each key's value in key order |
| `OrderedDicts.Items` | slither_lsp/app/request_handlers/call_hierarchy.py:137 | `d.items()` lists each key with its value in key order |
| `OrderedDicts.PutGet` | slither_lsp/app/slither_server.py:223 | after `d[k] = v`, `d[k]` is `v` and every other key reads as before |
| `OrderedDicts.PopGet` | slither_lsp/app/slither_server.py:249 | after a pop the key is absent and every other key reads as before |
| `OrderedDicts.PutAllKeys` | slither_lsp/app/request_handlers/call_hierarchy.py:61-73 | after a run of assignments a key is present exactly when it was or some entry assigns it |
| `OrderedDicts.PutAllFrom` | slither_lsp/app/request_handlers/call_hierarchy.py:61-73 | every value afterwards is the old one or one an entry assigned |
| `OrderedDicts.PutAllSnoc` | slither_lsp/app/request_handlers/call_hierarchy.py:61-73 | one more assignment extends a run of them |
| `OrderedDicts.PutAllConcat` | slither_lsp/app/request_handlers/call_hierarchy.py:61-73 | assigning two runs in turn is assigning their concatenation |
| `OrderedDicts.PutAllLastWins` | slither_lsp/app/request_handlers/call_hierarchy.py:62 | the last entry for a key is the one kept |
| `OrderedDicts.PutAllUntouched` | slither_lsp/app/request_handlers/call_hierarchy.py:61-73 | a key that no entry names keeps its value, or its absence |
| `OrderedDicts.AddTo` | slither_lsp/app/request_handlers/call_hierarchy.py:121 | `res[k].add(x)` on a `defaultdict(set)`: the key's set gains `x`, a missing key starts from `{x}` and goes last, and every other key is unchanged |
| `OrderedDicts.AddAllSnoc` | slither_lsp/app/request_handlers/call_hierarchy.py:109-121 | one more addition extends a run of them |
| `OrderedDicts.AddAllConcat` | slither_lsp/app/request_handlers/call_hierarchy.py:109-121 | adding two runs in turn is adding their concatenation |
| `OrderedDicts.AddAllKeys` | slither_lsp/app/request_handlers/call_hierarchy.py:82 | a key is present exactly when it was or some pair names it |
| `OrderedDicts.AddAllElements` | slither_lsp/app/request_handlers/call_hierarchy.py:121 | a key's set holds exactly what it held and everything added under that key |
| `SlitherObjects.ContractKind` | slither_lsp/app/request_handlers/symbols.py:46-49 | Interface exactly when the contract is an interface, Class exactly when it is not |
| `SlitherServer.PathTailIsLastComponent` | slither_lsp/app/slither_server.py:163 | `split(path)[1]` is a suffix of the path holding no '/', preceded by '/' when shorter than the path |
| `SlitherServer.PathTailOfJoin` | slither_lsp/app/slither_server.py:176-177 | the workspace name of a folder joined with a '/'-free name is that name |
| `SlitherServer.ParseAllCorrect` | slither_lsp/app/slither_server.py:196-199 | the detector results parse exactly when each one does, keeping all of them in order, and otherwise fail with the error of one of them |
| `SlitherServer.Recorded` | slither_lsp/app/slither_server.py:186-229 | a recorded result succeeded exactly when it holds the compilation and analysis and exactly when it holds no error; detector results appear only on success |
| `SlitherServer.RecordedSucceeds` | slither_lsp/app/slither_server.py:186-214 | success exactly when the build finished and every detector result parsed; a success keeps the compilation and analysis built, a failed build keeps its error |
| `SlitherServer.CompletionMessage` | slither_lsp/app/slither_server.py:204-218 | the completion message is the success one exactly when the recorded result succeeded |
| `SlitherServer.AnalyzeTargets` | slither_lsp/app/slither_server.py:160 | as many targets as given uris, or as folders when the uris are None or empty |
| `SlitherServer.AnalyzeSplitsTargets` | slither_lsp/app/slither_server.py:161-170 | each target is either queued or warned about, never both, and queued exactly when not in progress |
| `SlitherServer.ContainingCorrect` | slither_lsp/app/slither_server.py:275-290 | an (analysis, compilation) pair is listed exactly when some result holds both and its compilation's filename lookup succeeds |
| `SlitherServer.ContainingConcat` | slither_lsp/app/slither_server.py:284-290 | results are listed in analysis order: those of earlier results come first |
| `SlitherServer.Server.constructor` | slither_lsp/app/slither_server.py:77-97 | the server starts with no workspaces, nothing in progress, detectors enabled with no hidden checks and no diagnostics |
| `SlitherServer.Server.Analyses` | slither_lsp/app/slither_server.py:81-83 | the results of the workspaces, one per folder, in the dict's order |
| `SlitherServer.Server.WorkspaceOpened` | slither_lsp/app/slither_server.py:138-145 | true exactly when some folder has a result |
| `SlitherServer.Server.AnalysesContaining` | slither_lsp/app/slither_server.py:275-290 | a pair is listed exactly when some workspace's result holds it and its compilation knows the file |
| `SlitherServer.Server.QueueCompile` | slither_lsp/app/slither_server.py:172-232 | the folder is appended to what the worker pool was handed |
| `SlitherServer.Server.OnInitialized` | slither_lsp/app/slither_server.py:103-105 | the client is shown the Debug message that the server is initialized |
| `SlitherServer.Server.OnInitialize` | slither_lsp/app/slither_server.py:147-157 | every workspace folder given at initialization, normalised, is queued in order; None queues nothing |
| `SlitherServer.Server.AnalyzeTarget` | slither_lsp/app/slither_server.py:162-170 | one pass of the loop: a target in progress adds exactly its warning, any other target is appended to the queue |
| `SlitherServer.Server.OnAnalyze` | slither_lsp/app/slither_server.py:159-170 | the targets not in progress are queued in order, and each target in progress gets one warning in order |
| `SlitherServer.Server.BeginCompile` | slither_lsp/app/slither_server.py:181-185 | the folder's lock is taken and the start message is shown |
| `SlitherServer.Server.Refresh` | slither_lsp/app/slither_server.py:267-273 | the tracked diagnostics become the findings of the current results grouped by file; the client is sent an empty list for each file that lost its diagnostics, then every file's new list in order |
| `SlitherServer.Server.FinishCompile` | slither_lsp/app/slither_server.py:202-230 | the result recorded for the folder replaces any earlier one, the completion message is shown, the diagnostics are refreshed and the lock is released |
| `SlitherServer.Server.Report` | slither_lsp/app/slither_server.py:215-218 | the message is appended to what the client was shown |
| `SlitherServer.Server.Release` | slither_lsp/app/slither_server.py:181 | leaving the `with` block removes the folder from those in progress |
| `SlitherServer.Server.OnDidChangeWorkspaceFolders` | slither_lsp/app/slither_server.py:234-249 | added folders not in progress are queued in order; removed folders lose their results, absent ones tolerated, and no folder is gained |
| `SlitherServer.Server.QueueAdded` | slither_lsp/app/slither_server.py:242-245 | each added folder, normalised, is queued when not in progress |
| `SlitherServer.Server.ForgetRemoved` | slither_lsp/app/slither_server.py:246-249 | each removed folder's result is dropped, absent ones tolerated |
| `SlitherServer.Server.SetDetectorSettings` | slither_lsp/app/slither_server.py:251-265 | the settings are stored; equal settings change nothing else, different ones republish the diagnostics |
| `SlitherServer.FolderRemovalForgets` | slither_lsp/app/slither_server.py:246-249 | a removed folder has no result afterwards, and any folder not removed has one exactly when it had one before |
| `SlitherDiagnostics.DiagnosticRange` | slither_lsp/app/feature_analyses/slither_diagnostics.py:83-96 | start is (first line − 1, starting column − 1) and end is (last line − 1, ending column − 1), with no clamping |
| `SlitherDiagnostics.DiagnosticOf` | slither_lsp/app/feature_analyses/slither_diagnostics.py:81-101 | message "[IMPACT] description" with the impact upper-cased, severity Information, code the check, source "slither" |
| `SlitherDiagnostics.Cleared` | slither_lsp/app/feature_analyses/slither_diagnostics.py:127 | one empty list sent per file cleared, in the given order |
| `SlitherDiagnostics.GroupEntry` | slither_lsp/app/feature_analyses/slither_diagnostics.py:67-81 | a file has an entry exactly when some finding targets it, and the entry lists that file's diagnostics in the order found |
| `SlitherDiagnostics.Uris` | slither_lsp/app/feature_analyses/slither_diagnostics.py:67-70 | the target file of each finding, one per finding, in order |
| `SlitherDiagnostics.GroupKeyOrder` | slither_lsp/app/feature_analyses/slither_diagnostics.py:73-78 | files are listed in the order of their first finding |
| `SlitherDiagnostics.FindingsSoundAndComplete` | slither_lsp/app/feature_analyses/slither_diagnostics.py:54-64 | every finding comes from a detector result with a first element that has a source mapping and an unhidden check, and every such result gives one |
| `SlitherDiagnostics.HidingDropsResults` | slither_lsp/app/feature_analyses/slither_diagnostics.py:63-64 | hiding checks gives the same findings as removing their results beforehand and hiding nothing |
| `SlitherDiagnostics.AnalysisWithoutResultsSkipped` | slither_lsp/app/feature_analyses/slither_diagnostics.py:50-52 | an analysis whose detector results are None contributes nothing: leaving it out changes no finding |
| `SlitherDiagnostics.AnalysesFindingsConcat` | slither_lsp/app/feature_analyses/slither_diagnostics.py:49 | the findings of two runs of analyses are those of the first followed by those of the second |
| `SlitherDiagnostics.Diagnostics.constructor` | slither_lsp/app/feature_analyses/slither_diagnostics.py:21-26 | no file is tracked at first |
| `SlitherDiagnostics.Diagnostics.ClearSingle` | slither_lsp/app/feature_analyses/slither_diagnostics.py:118-131 | an empty list is sent for the file, which is dropped from the lookup only when asked |
| `SlitherDiagnostics.Diagnostics.Clear` | slither_lsp/app/feature_analyses/slither_diagnostics.py:133-143 | an empty list is sent for every tracked file in order, then nothing is tracked |
| `SlitherDiagnostics.Diagnostics.Update` | slither_lsp/app/feature_analyses/slither_diagnostics.py:30-116 | the tracked diagnostics become the findings grouped by file (none when disabled); each file that lost its diagnostics is sent one empty list, then every file's new list is sent in order |
| `SlitherDiagnostics.Diagnostics.ClearDropped` | slither_lsp/app/feature_analyses/slither_diagnostics.py:105-107 | each file of the set is sent exactly one empty list |
| `SlitherDiagnostics.Diagnostics.PublishAll` | slither_lsp/app/feature_analyses/slither_diagnostics.py:113-116 | each tracked file's diagnostics are sent, in the lookup's order |
| `SlitherDiagnostics.Diagnostics.Collect` | slither_lsp/app/feature_analyses/slither_diagnostics.py:42-102 | the nested loops build exactly the grouping of all findings under the settings |
| `SlitherDiagnostics.Diagnostics.CollectResult` | slither_lsp/app/feature_analyses/slither_diagnostics.py:55-102 | one detector result adds its finding to its file's list exactly when it is shown, and otherwise changes nothing |
| `SlitherDiagnostics.AppendToFile` | slither_lsp/app/feature_analyses/slither_diagnostics.py:73-81 | getting or creating the file's params and appending to them is adding the finding to the grouping |
| `SolidityWorkspace.FoldersByUriLastWins` | slither_lsp/app/solidity_workspace.py:139-141 | a URI has an entry exactly when some folder has it, and the entry is the last folder listed with it |
| `SolidityWorkspace.UnnamedFolderUnchanged` | slither_lsp/app/solidity_workspace.py:151-154 | a folder named by no added or removed folder keeps its entry, or its absence |
| `SolidityWorkspace.AddedThenRemoved` | slither_lsp/app/solidity_workspace.py:151-154 | adds come before removes: a folder both added and removed is absent afterwards |
| `SolidityWorkspace.RemovingAbsentFails` | slither_lsp/app/solidity_workspace.py:154 | popping a folder that is not there raises KeyError |
| `SolidityWorkspace.PendingAfter` | slither_lsp/app/solidity_workspace.py:115-118 | after a run of polls the analysis is still pending exactly when it was and no poll came more than a second after the last change |
| `SolidityWorkspace.Wiring` | slither_lsp/app/solidity_workspace.py:55-89 | under the intended subscriptions, only the 'textDocument.didChange' event reaches `on_did_change_text_document` |
| `SolidityWorkspace.WiringInjective` | slither_lsp/app/solidity_workspace.py:55-89 | under the intended subscriptions no two events reach the same handler |
| `SolidityWorkspace.WiringAsWrittenLosesChange` | slither_lsp/app/solidity_workspace.py:80-89 | as written, 'textDocument.didChange' and 'textDocument.didClose' reach the same handler, and no event reaches `on_did_change_text_document` |
| `SolidityWorkspace.DocumentChangeEffect` | slither_lsp/app/solidity_workspace.py:85-89 | as written, an edit to an open document forgets it and an edit to an unopened one raises KeyError; under the intended wiring an edit changes nothing |
| `SolidityWorkspace.LoopStops` | slither_lsp/app/solidity_workspace.py:114 | the intended guard stops the loop exactly when this workspace or the server is shut down |
| `SolidityWorkspace.PendingNeverClearsAsWritten` | slither_lsp/app/solidity_workspace.py:114-118 | with no shutdown signalled and the files settled, the written guard leaves the analysis pending while the intended guard clears it |
| `SolidityWorkspace.Workspace.constructor` | slither_lsp/app/solidity_workspace.py:34-50 | no folders, no open documents, no analysis pending, change time 0 and not shut down |
| `SolidityWorkspace.Workspace.Shutdown` | slither_lsp/app/solidity_workspace.py:123-128 | the shutdown flag is set |
| `SolidityWorkspace.Workspace.OnServerInitialized` | slither_lsp/app/solidity_workspace.py:130-142 | the folders become those given, keyed by URI, and no document is open; without workspace folders TypeError is raised and nothing changes |
| `SolidityWorkspace.Workspace.OnDidChangeWorkspaceFolders` | slither_lsp/app/solidity_workspace.py:144-154 | each added folder is stored, then each removed one popped; the first absent removal raises KeyError, keeping the changes made before it |
| `SolidityWorkspace.Workspace.OnDidOpenTextDocument` | slither_lsp/app/solidity_workspace.py:156-162 | the document is stored under its URI, replacing any earlier one |
| `SolidityWorkspace.Workspace.OnDidCloseTextDocument` | slither_lsp/app/solidity_workspace.py:164-170 | the document is forgotten, or KeyError is raised and nothing changes when it was not open |
| `SolidityWorkspace.Workspace.OnDocumentChangedAsWritten` | slither_lsp/app/solidity_workspace.py:85-89 | a didChange event as subscribed has the effect of closing the document |
| `SolidityWorkspace.Workspace.OnDocumentChanged` | slither_lsp/app/solidity_workspace.py:172-179 | a didChange event under the intended wiring leaves the open documents as they are |
| `SolidityWorkspace.Workspace.OnDidChangeWatchedFiles` | slither_lsp/app/solidity_workspace.py:181-189 | an analysis is pending and the change time is now |
| `SolidityWorkspace.Workspace.Poll` | slither_lsp/app/solidity_workspace.py:115-118 | a pending analysis clears exactly when more than a second has passed since the last change |
| `SolidityWorkspace.Workspace.PollUntil` | slither_lsp/app/solidity_workspace.py:114-121 | the loop leaves the pending flag PendingAfterLoop gives for its guard and clock readings |
| `SolidityWorkspace.Workspace.MainLoopAsWritten` | slither_lsp/app/solidity_workspace.py:91-121 | as written, the loop's result is that of a guard that stops at once, whatever the flags |
| `SolidityWorkspace.Workspace.MainLoop` | slither_lsp/app/solidity_workspace.py:91-121 | with the intended guard, the loop polls until this workspace or the server is shut down |
| `Collecting.CollectFails` | slither_lsp/app/request_handlers/call_hierarchy.py:57-72 | a loop over objects that skips some, keeps others and may raise fails exactly when some object raises, and then with that object's exception |
| `Collecting.CollectOk` | slither_lsp/app/request_handlers/call_hierarchy.py:57-72 | when such a loop finishes, no object raised |
| `Collecting.CollectMembers` | slither_lsp/app/request_handlers/call_hierarchy.py:57-72 | what the loop keeps is exactly what the objects give when not skipped |
| `Collecting.FlattenFails` | slither_lsp/app/request_handlers/call_hierarchy.py:153-175 | nested loops over analyses fail exactly when one of the inner loops raises, and then with its exception |
| `Collecting.FlattenOk` | slither_lsp/app/request_handlers/call_hierarchy.py:153-175 | when the nested loops finish, every inner loop finished |
| `Collecting.FlattenMembers` | slither_lsp/app/request_handlers/call_hierarchy.py:153-175 | what the nested loops gather is exactly what the inner loops give |
| `Collecting.CollectPrefixFails` | slither_lsp/app/request_handlers/call_hierarchy.py:57-72 | once an object raises, the loop ends with that exception whatever follows |
| `Collecting.FlattenPrefixFails` | slither_lsp/app/request_handlers/call_hierarchy.py:153-175 | once an inner loop raises, the whole ends with that exception whatever follows |
| `Collecting.FlatMapMembers` | slither_lsp/app/request_handlers/call_hierarchy.py:91-96 | a nested comprehension holds exactly what its items give |
| `Collecting.FilteredMembers` | slither_lsp/app/request_handlers/inlay_hints.py:37-51 | a loop that skips some items and appends the rest holds exactly what the kept items give |
| `Collecting.FilteredAll` | slither_lsp/app/request_handlers/inlay_hints.py:37-51 | when nothing is skipped, item i gives entry i |
| `Collecting.FilteredBound` | slither_lsp/app/request_handlers/inlay_hints.py:37-51 | each item gives at most one entry, and when all are skipped nothing is appended |
| `GotoLocations.Located` | slither_lsp/app/request_handlers/goto_def_impl_refs.py:42-45 | one location per source, in order, each `source_to_location` of its source |
| `GotoLocations.InspectConcat` | slither_lsp/app/request_handlers/goto_def_impl_refs.py:24-47 | results are the concatenation, in analysis order, of each analysis's locations |
| `GotoLocations.FailingAnalysisSkipped` | slither_lsp/app/request_handlers/goto_def_impl_refs.py:28-39 | an analysis that is None, or whose offset lookup or query raises, contributes nothing and the request still succeeds with the others' locations |
| `GotoLocations.InspectMembers` | slither_lsp/app/request_handlers/goto_def_impl_refs.py:24-47 | a location is returned exactly when some analysis contributes it |
| `GotoLocations.AnalysisLocationsSound` | slither_lsp/app/request_handlers/goto_def_impl_refs.py:31-45 | a location an analysis contributes comes from a source its query returned at the global offset of the line plus the column |
| `GotoLocations.SameQuerySameLocations` | slither_lsp/app/request_handlers/goto_def_impl_refs.py:59-106 | the three handlers differ only in the query: two queries that agree give the same locations |
| `GotoLocations.InspectAnalyses` | slither_lsp/app/request_handlers/goto_def_impl_refs.py:16-47 | the loop over analyses returns exactly the specified locations |
| `GotoLocations.AddAnalysisLocations` | slither_lsp/app/request_handlers/goto_def_impl_refs.py:28-45 | one analysis adds nothing when it is not built or when the offset or the query raises, and otherwise exactly the locations of its sources |
| `GotoLocations.AppendLocated` | slither_lsp/app/request_handlers/goto_def_impl_refs.py:42-45 | the inner loop appends the location of each source, in order |
| `GotoLocations.OnLookup` | slither_lsp/app/request_handlers/goto_def_impl_refs.py:56-63 | a lookup searches the request's file at line `position.line + 1` and column `position.character` |
| `GotoLocations.OnGotoDefinition` | slither_lsp/app/request_handlers/goto_def_impl_refs.py:50-67 | the definitions query over every analysis |
| `GotoLocations.OnGotoImplementation` | slither_lsp/app/request_handlers/goto_def_impl_refs.py:70-87 | the implementations query over every analysis |
| `GotoLocations.OnFindReferences` | slither_lsp/app/request_handlers/goto_def_impl_refs.py:90-107 | the references query over every analysis |
| `CallHierarchy.ItemTarget` | slither_lsp/app/request_handlers/call_hierarchy.py:88-89 | `data["filename"]` and `data["offset"]` read back a string and an integer; a non-dict raises TypeError and a missing filename KeyError |
| `CallHierarchy.ItemDataRoundTrip` | slither_lsp/app/request_handlers/call_hierarchy.py:68-71 | the data prepare stores is read back by incoming and outgoing unchanged |
| `CallHierarchy.Grouped` | slither_lsp/app/request_handlers/call_hierarchy.py:122-138 | one call per `res` entry in key order, whose item is the entry's CallItem sent as a hierarchy item and whose ranges are the entry's ranges |
| `CallHierarchy.GroupedMembers` | slither_lsp/app/request_handlers/call_hierarchy.py:121-138 | the grouped calls are exactly the items of the recorded sites, each with every range recorded for it |
| `CallHierarchy.ItemOfCallInjective` | slither_lsp/app/request_handlers/call_hierarchy.py:123-134 | a different CallItem is sent as a different hierarchy item |
| `CallHierarchy.GroupedDistinct` | slither_lsp/app/request_handlers/call_hierarchy.py:147-192 | one entry per distinct callee or caller: no two grouped calls share an item |
| `CallHierarchy.PrepareEntriesMembers` | slither_lsp/app/request_handlers/call_hierarchy.py:48-72 | the assignments prepare makes are exactly the entries of the function objects at the cursor, over the analyses containing the file |
| `CallHierarchy.PreparedFromEntry` | slither_lsp/app/request_handlers/call_hierarchy.py:61-73 | every item returned was assigned by some entry |
| `CallHierarchy.PrepareKeepsFunctions` | slither_lsp/app/request_handlers/call_hierarchy.py:57-72 | every item is that of a Function object at the cursor, named by its canonical name with kind Function, and carries the file and the definition's offset |
| `CallHierarchy.EntriesKeyedByData` | slither_lsp/app/request_handlers/call_hierarchy.py:62-71 | an entry's key is the request's file and the definition offset, exactly what its item's data carries |
| `CallHierarchy.PrepareDistinct` | slither_lsp/app/request_handlers/call_hierarchy.py:43-73 | one item per definition: no two returned items carry the same data |
| `CallHierarchy.PrepareLastWins` | slither_lsp/app/request_handlers/call_hierarchy.py:62 | the last assignment to a key is the item returned |
| `CallHierarchy.PreparedDataReadBack` | slither_lsp/app/request_handlers/call_hierarchy.py:68-71 | incoming and outgoing read from a prepared item its file and its definition offset |
| `CallHierarchy.OutgoingSitesMembers` | slither_lsp/app/request_handlers/call_hierarchy.py:153-175 | the outgoing sites are exactly the InternalCall and HighLevelCall ops to functions made by the functions at the target |
| `CallHierarchy.OutgoingCallees` | slither_lsp/app/request_handlers/call_hierarchy.py:141-193 | one hop: each entry is a callee of a direct call from a function at the target, with every range recorded for it, and every such callee has an entry |
| `CallHierarchy.ReferencedMembers` | slither_lsp/app/request_handlers/call_hierarchy.py:91-96 | the referenced functions are exactly the Function objects at the target offset in the analyses containing the file |
| `CallHierarchy.CallsMembers` | slither_lsp/app/request_handlers/call_hierarchy.py:98-107 | the calls are exactly the InternalCall and HighLevelCall ops to functions in the functions of every built analysis |
| `CallHierarchy.IncomingSitesMembers` | slither_lsp/app/request_handlers/call_hierarchy.py:109-121 | the incoming sites are exactly the calls whose callee is identical to a referenced function |
| `CallHierarchy.IncomingCallers` | slither_lsp/app/request_handlers/call_hierarchy.py:76-138 | one hop: each entry is the caller of a direct call to a function at the target, with every range recorded for it, and every such caller has an entry |
| `CallHierarchy.RecursiveIsOwnCallee` | slither_lsp/app/request_handlers/call_hierarchy.py:163-175 | no filter excludes a call a function makes to itself: a recursive function is among its own callees |
| `CallHierarchy.OutgoingCallSitesOk` | slither_lsp/app/request_handlers/call_hierarchy.py:163-175 | when the outgoing sites are computed, every call they cover has a site |
| `CallHierarchy.RecursiveIsOwnCaller` | slither_lsp/app/request_handlers/call_hierarchy.py:109-121 | a recursive function at the target is among its own callers |
| `CallHierarchy.OnPrepareCallHierarchy` | slither_lsp/app/request_handlers/call_hierarchy.py:30-73 | the handler's loops return exactly the specified prepared items |
| `CallHierarchy.PrepareInAnalysis` | slither_lsp/app/request_handlers/call_hierarchy.py:48-56 | one analysis: the cursor's global offset, then the objects there, assigned as specified |
| `CallHierarchy.PrepareObjects` | slither_lsp/app/request_handlers/call_hierarchy.py:57-72 | the inner loop assigns the item of each function object, as specified |
| `CallHierarchy.OnOutgoingCalls` | slither_lsp/app/request_handlers/call_hierarchy.py:141-193 | the handler's loops return exactly the specified outgoing calls |
| `CallHierarchy.AddObjectCallees` | slither_lsp/app/request_handlers/call_hierarchy.py:155-175 | the loop over the objects at the target adds the callees of each function |
| `CallHierarchy.AddCallees` | slither_lsp/app/request_handlers/call_hierarchy.py:158-175 | the loop over one function's call ops adds each callee's item with the call's range |
| `CallHierarchy.OnIncomingCalls` | slither_lsp/app/request_handlers/call_hierarchy.py:76-138 | the handler's loops return exactly the specified incoming calls |
| `CallHierarchy.AddCallers` | slither_lsp/app/request_handlers/call_hierarchy.py:110-121 | the loop over the calls adds, for each call to the function, the caller's item with the call's range |
| `TypeHierarchy.TypeItemOf` | slither_lsp/app/request_handlers/type_hierarchy.py:50-63 | the kind is Interface exactly when the contract is an interface and Class otherwise; only a contract without a source mapping raises |
| `TypeHierarchy.ItemOfTypeInjective` | slither_lsp/app/request_handlers/type_hierarchy.py:65-77 | a different TypeItem is sent as a different hierarchy item |
| `TypeHierarchy.ShownMembers` | slither_lsp/app/request_handlers/type_hierarchy.py:32-78 | results are deduplicated as a set: an item is shown exactly when its TypeItem was added, however often |
| `TypeHierarchy.PrepareKeepsContracts` | slither_lsp/app/request_handlers/type_hierarchy.py:37-64 | every prepared item is that of a Contract object at the cursor, an interface exactly when the contract is one and a class otherwise |
| `TypeHierarchy.ReferencedContractsMembers` | slither_lsp/app/request_handlers/type_hierarchy.py:96-103 | the referenced contracts are exactly the Contract objects at the target offset in the analyses containing the file |
| `TypeHierarchy.AllContractsMembers` | slither_lsp/app/request_handlers/type_hierarchy.py:105-111 | `contracts` pairs exactly the contracts of every built analysis's compilation units with its compilation |
| `TypeHierarchy.SubtypesExactly` | slither_lsp/app/request_handlers/type_hierarchy.py:105-129 | subtypes are exactly the contracts, across all analyses, whose `immediate_inheritance` contains a contract at the target |
| `TypeHierarchy.SupertypePairsMembers` | slither_lsp/app/request_handlers/type_hierarchy.py:161-169 | the supertype pairs are exactly the direct supertypes of the contracts at the target, with the compilation they were found in |
| `TypeHierarchy.SupertypesExactly` | slither_lsp/app/request_handlers/type_hierarchy.py:161-184 | supertypes are exactly the `immediate_inheritance` of the contracts at the target |
| `TypeHierarchy.SubtypeThenSupertype` | slither_lsp/app/request_handlers/type_hierarchy.py:115-168 | when B inherits directly from A, the subtypes of A list B and the supertypes of B list A |
| `TypeHierarchy.OnPrepareTypeHierarchy` | slither_lsp/app/request_handlers/type_hierarchy.py:26-78 | the handler's loops return exactly the specified prepared items |
| `TypeHierarchy.PrepareTypesIn` | slither_lsp/app/request_handlers/type_hierarchy.py:38-64 | one analysis: the cursor's global offset, then each contract there added to the set |
| `TypeHierarchy.OnGetSubtypes` | slither_lsp/app/request_handlers/type_hierarchy.py:81-143 | the handler's loops return exactly the specified subtypes |
| `TypeHierarchy.AddSubtypes` | slither_lsp/app/request_handlers/type_hierarchy.py:114-129 | the loop over `contracts` adds each contract that inherits directly from the referenced one |
| `TypeHierarchy.OnGetSupertypes` | slither_lsp/app/request_handlers/type_hierarchy.py:146-198 | the handler's loop returns exactly the specified supertypes |
| `Symbols.KeptMembers` | slither_lsp/app/request_handlers/symbols.py:27-35 | a member becomes a child exactly when it has a source mapping, shown with its name, the loop's kind, its range and its name's range |
| `Symbols.KeptAll` | slither_lsp/app/request_handlers/symbols.py:52-55 | when every member has a source mapping none is dropped: one child per member, in the declared order |
| `Symbols.KeptKind` | slither_lsp/app/request_handlers/symbols.py:52-70 | every child added by one loop carries that loop's kind |
| `Symbols.ChildrenOrdered` | slither_lsp/app/request_handlers/symbols.py:52-70 | children come as structures, then enums and events (both of kind Enum), then functions and modifiers; no other kind appears |
| `Symbols.ChildrenMembers` | slither_lsp/app/request_handlers/symbols.py:52-70 | the children are exactly the mapped structures, enums, events, functions and modifiers declared by the contract, each with the kind of its list |
| `Symbols.FileSymbolsMembers` | slither_lsp/app/request_handlers/symbols.py:39-80 | the symbols of an analysis are exactly those of its contracts whose source lies in the file |
| `Symbols.FileSymbolsAll` | slither_lsp/app/request_handlers/symbols.py:39-80 | when all contracts lie in the file there is one symbol per contract, in the analysis' order |
| `Symbols.FileSymbolsBound` | slither_lsp/app/request_handlers/symbols.py:40-45 | a contract outside the file gives no symbol; there are never more symbols than contracts |
| `Symbols.DocumentSymbolsOk` | slither_lsp/app/request_handlers/symbols.py:37-38 | over the analyses whose compilation knows the file, the handler never raises |
| `Symbols.DocumentSymbolsMembers` | slither_lsp/app/request_handlers/symbols.py:37-82 | a symbol is returned exactly when some analysis that knows the file lists it for one of its contracts in the file |
| `Symbols.OnDocumentSymbol` | slither_lsp/app/request_handlers/symbols.py:20-82 | the loop over the analyses containing the document's path returns exactly the document symbols specified over them |
| `Symbols.AddContractSymbols` | slither_lsp/app/request_handlers/symbols.py:39-80 | the loop over the contracts appends exactly the symbols of the contracts in the file to what was there |
| `Symbols.ContractSymbolIn` | slither_lsp/app/request_handlers/symbols.py:41-80 | one turn of the contract loop yields the contract's symbol exactly when its source lies in the file, else nothing |
| `Symbols.ContractChildren` | slither_lsp/app/request_handlers/symbols.py:50-70 | the four loops build exactly the specified children of the contract |
| `Symbols.AddChildren` | slither_lsp/app/request_handlers/symbols.py:27-35 | one loop appends exactly the children kept from its member list |
| `InlayHints.HexRoundTrip` | slither_lsp/app/request_handlers/inlay_hints.py:59 | the lowercase hexadecimal digits of a number read back as that number |
| `InlayHints.HexLength` | slither_lsp/app/request_handlers/inlay_hints.py:59 | a number below 16^k has at most k hexadecimal digits |
| `InlayHints.LeadingZeros` | slither_lsp/app/request_handlers/inlay_hints.py:59 | zeros on the left do not change the value the digits read back as |
| `InlayHints.ZeroPadShape` | slither_lsp/app/request_handlers/inlay_hints.py:59 | zero padding to a width keeps the digits and their value, adds only zeros on the left and never truncates |
| `InlayHints.SelectorLabelShape` | slither_lsp/app/request_handlers/inlay_hints.py:53-61 | the selector label is ": 0x" and lowercase hexadecimal digits that read back as the function id; a four-byte id gives exactly twelve characters |
| `InlayHints.FourBytes` | slither_lsp/app/request_handlers/inlay_hints.py:59 | a four-byte selector has at most eight hexadecimal digits, so the ten-character `0x` form never overflows its width |
| `InlayHints.ArgumentHintsMembers` | slither_lsp/app/request_handlers/inlay_hints.py:67-87 | the hints of an operation are exactly, for each argument of an unnamed internal or high-level call to a function, the matching parameter's name and ": " at the argument's start |
| `InlayHints.ArgumentHintsFail` | slither_lsp/app/request_handlers/inlay_hints.py:78-80 | an operation raises, with IndexError, exactly when it needs names and passes more arguments than the callee has parameters; an operation that needs none gives no hint |
| `InlayHints.FunctionHintsMembers` | slither_lsp/app/request_handlers/inlay_hints.py:53-87 | the hints of a function are exactly its selector hint when public or external, and the argument hints of its operations |
| `InlayHints.FileFunctionsMembers` | slither_lsp/app/request_handlers/inlay_hints.py:37-51 | the functions considered are exactly the functions and modifiers of the contracts whose source lies in the file |
| `InlayHints.AnalysisHintsMembers` | slither_lsp/app/request_handlers/inlay_hints.py:35-87 | an analysis that yields hints knows the file, and its hints are exactly those of the functions and modifiers of its contracts in the file |
| `InlayHints.HintsMembers` | slither_lsp/app/request_handlers/inlay_hints.py:33-92 | a hint is returned exactly when some analysis that knows the file gives it for a function of the file, with its position converted |
| `InlayHints.ShownInjective` | slither_lsp/app/request_handlers/inlay_hints.py:89-92 | two hints are shown alike exactly when they are the same hint, so the result set drops only duplicates |
| `InlayHints.FunctionFails` | slither_lsp/app/request_handlers/inlay_hints.py:67-87 | a function raises exactly when one of its operations does, and then with IndexError |
| `InlayHints.AnalysisFails` | slither_lsp/app/request_handlers/inlay_hints.py:35-87 | an analysis that knows the file raises exactly when a function of the file has a failing operation, and then with IndexError |
| `InlayHints.HintsFail` | slither_lsp/app/request_handlers/inlay_hints.py:25-92 | over the analyses that know the file the handler raises only IndexError, exactly when some function of the file passes too many arguments in a call that needs names |
| `InlayHints.OnInlayHints` | slither_lsp/app/request_handlers/inlay_hints.py:25-92 | the handler's loops return exactly the specified hints, or the specified error, over the analyses containing the document's path |
| `InlayHints.HintsInAnalysis` | slither_lsp/app/request_handlers/inlay_hints.py:37-87 | the loop over the file's functions adds exactly their hints to the set, or stops with the first error |
| `InlayHints.AddFunctionHints` | slither_lsp/app/request_handlers/inlay_hints.py:62-87 | one function adds its selector hint when shown, then the hints of its operations, or fails as specified |
| `InlayHints.AddOperationHints` | slither_lsp/app/request_handlers/inlay_hints.py:67-87 | the loop over the operations adds exactly their argument hints, or stops with the first error |
| `InlayHints.AddArgumentHints` | slither_lsp/app/request_handlers/inlay_hints.py:67-87 | one operation adds exactly its argument hints, or raises IndexError when a parameter is missing |

## Left out

- Threads and locks: the thread pool, the per-folder `Lock`s, `@ls.thread` and the I/O locks. Everything runs sequentially. A compilation under way is a set of folder uris. Waiting for a folder's lock becomes a precondition that the folder is not under way (`SlitherServer.Server.BeginCompile`, `SlitherServer.Server.OnDidChangeWorkspaceFolders`).
- Slither and crytic-compile are not interpreted. This covers compilations, analyses, declarations, `offset_to_objects`, definitions, implementations, references, `get_definition`, `filename_lookup`, `all_slithir_operations`, the detectors and SolcStandardJson. They are fields of an abstract record (`SlitherObjects.Slither`) or function parameters.
- `get_function_id` (Keccak-256 of the signature) is a function parameter of that record. The selector label is modelled only from the id onwards.
- The URI and path helpers come from urllib and `os.path`: `uri_to_fs_path`, `fs_path_to_uri` and `normalize_uri`. They and `str.upper` are functions the caller supplies (`AppTypes.Helpers`).
- `json.dumps` and `json.loads` are not part of this model. Framing takes the dumped text and returns the body bytes.
- The transport and process shells are not modelled: console and network servers, `__main__.py`, the read loop, `sys.exit` and StandardOutputCapture.
- `readline` returning None at end of stream is not modelled: the stream is a finite byte sequence.
- Initialize: the versions the replies report are parameters, since they come from pkg_resources. The legacy handlers report the slither-analyzer package's version (command_handlers/lifecycle/initialize.py:70, initialize_handler.py:67). The typed context reports the slither-lsp package's (lsp/state/server_context.py:81). `Initialize.ServerInfoAgrees` states that the two `serverInfo` dicts agree exactly when those versions are equal.
- The process's working directory is a parameter.
- Time: wall-clock readings and `sleep` are integer milliseconds. There are no floats.
- The event emitters (pymitter, one thread per event) are not modelled. A subscription is a table from event name to handler.
- Thin handlers are left out. This covers the text-document and workspace notifications of both generations, set_trace, initialized, shutdown, exit, the request and command senders, analysis_delete, run_detectors, get_detector_list, get_version and analyze_handler. Each parses its params with the codec modelled here and calls a stub or a foreign function.
- Files with no behaviour are not part of this model:
  - `get_command_line_args.py`;
  - `code_lens.py`, which is never registered;
  - the hook, config and abstract base classes;
  - the handler registries;
  - `setup.py`;
  - the logging level table.
- The two `autogenerate_standard_json.py` files are not part of this model. Neither are `get_solidity_files` and `generate_compilation_targets` in `solidity_workspace.py`. They walk the disk with `os.walk` and feed SolcStandardJson.
- `slither_lsp/types/lsp_basic_structures.py` never implements the legacy codec hooks. Its round-trip tests are stated against the typed basic structures instead. The declaration-only `server_enums.py` and `workspace_types.py` are left out.
- `app/types/analysis_structures.py`, `compilation_structures.py` and `params.py` are not part of this model. AnalysisResult, the detector settings and the detector results are modelled from their uses in `slither_server.py` and `slither_diagnostics.py`. The AnalysisResult declared there lacks the `detector_results` field the server reads.
- Python reflection (`dataclasses.fields`, `typing.get_origin`/`get_args`, `inspect.isclass`) is replaced by the explicit schema.
- Codec: the typed generation (`slither_lsp/lsp/types`) is modelled for Python 3.11 and later. There `typing.Any` is a class, so an enum or structure under an `Any` annotation is written as its value or dict. On Python 3.10 `inspect.isclass(Any)` is False, and base_serializable_structure.py:168-169 would return such values unchanged; that behaviour is not modelled.
- LegacyTypes: the legacy generation (`slither_lsp/types`) is modelled for Python 3.10 and earlier. Its dataclass-instance defaults (lsp_capabilities.py:59, 94, 273, 276) make the module fail to import with ValueError on Python 3.11 and later, so that failure is not modelled.
- LegacyCodec.WriteValue: `int()` of a str is modelled for ASCII whitespace and ASCII digits only. Unicode whitespace and Unicode decimal digits, which Python's `int()` also accepts, are not modelled.
- PyInts.PyInt: `int()` of a str reads ASCII whitespace and ASCII digits only. Text holding Unicode whitespace or a Unicode decimal digit, which Python's `int()` accepts, gives ValueError in the model.
- PyInts.IntTextRejectsForeign: "no digit" means no ASCII digit and "whitespace" means ASCII whitespace, so it also claims ValueError for text with a Unicode decimal digit or Unicode whitespace, which Python's `int()` accepts.
- PyInts.IntTextRejectsUnderscore: an underscore before a Unicode decimal digit, which Python's `int()` accepts, is claimed to raise ValueError.
- AppRanges: a document's lines are a non-empty sequence by type. The IndexError that ranges.py:27, 31 and 57 raise on an empty list of lines is not modelled.
- SlitherDiagnostics.DiagnosticRange: a detector element's source lines are a non-empty sequence by type. An element whose source mapping lists no lines makes slither_diagnostics.py:85 (`lines[0]`) and :91 (`lines[-1]`) raise IndexError inside `update`'s build loop, so `update` aborts before clearing, replacing or publishing anything; that failure is not modelled, and `SlitherDiagnostics.Diagnostics.Update` never shows it.
- FilePaths: the directory tree is a finite value. A directory symlink cycle, on which file_paths.py:38-42 recurses until RecursionError, is not modelled.
- JsonRpcIo: header lines are taken as ASCII. The UnicodeDecodeError that jsonrpc_io.py:44 raises when a header is not valid UTF-8 is not modelled.
- StateCapabilities: the capability dicts are values. The aliasing between the dict passed to `Capabilities(data)` and the one it keeps is not modelled.
- LegacyTypes.TestClassA: its `to_dict` fills the dict it is given but returns None (tests/test_serializable_structure.py:12-13). The model's writing result is the dict written into, so that None return value is not modelled. Called without a dict it raises TypeError, which is modelled (`LegacyTypes.ParentNeedsDict`).
- Python's `1 == True` is not modelled. All enforced constants are strings.
- Naming.Title: only ASCII letters are cased, whereas `str.title` also cases the rest of Unicode.
- Codec.Serialize: an enforced constant or default that holds a dataclass instance is refused with RecursionError, so that serialization terminates. No schema of the server declares one.
- CallHierarchy.ItemTarget: item data whose `filename` is not a string or whose `offset` is not an integer fails with TypeError. Python would carry such a value on into Slither.
- CallHierarchy.OnIncomingCalls: the ranges of the calls (`from_ranges`) are a set. Their list order, which follows Python's set iteration, is not modelled.
- CallHierarchy.OnOutgoingCalls: the same applies to the ranges of the calls.
- SlitherDiagnostics.Diagnostics.ClearDropped: the files are cleared in the order of Python's set iteration. The model picks an arbitrary order, and its contract states the set of files cleared and not their order.
- Sockets, concurrency between requests, and floating point are not modelled.

## Findings

| source | as written | input that shows it | evidently intended | confidence | as-written member | corrected member |
|---|---|---|---|---|---|---|
| slither_lsp/types/lsp_capabilities.py:97-117 | the legacy ServerCapabilities hook reads the workspace capabilities from the key `support`, but `to_dict` writes them under `workspace` | a ServerCapabilities whose `workspace` is set: `from_dict(to_dict(x))` has `workspace` None | read the key `workspace`, so that the class round-trips like its siblings | not executed | `LegacyTypes.ServerCapabilitiesLosesWorkspace` | `LegacyTypes.ServerCapabilitiesRoundTrip` |
| slither_lsp/lsp/types/params.py:239-263 | `DidChangeTextDocumentParams.content_changes` is annotated as a single TextDocumentContentChangeEvent | `{"textDocument": {...}, "contentChanges": [{"text": "x"}]}`, the array the protocol sends, fails with ValueError | `List[TextDocumentContentChangeEvent]`, as the protocol's contentChanges is an array | not executed | `LspParamsProps.ContentChangesRejectedAsWritten` | `LspParamsProps.ContentChangesParsed` |
| slither_lsp/servers/base_server.py:86-92 | after shutdown, the guard refuses a message when it has no id, that is, a notification | `{"jsonrpc": "2.0", "method": "exit"}` after `shutdown` is answered with InvalidRequest and never exits, while a request with an id is still handled | refuse requests (messages with an id) after shutdown and let notifications such as `exit` through | not executed | `Dispatcher.ShutdownGuardAsWritten` | `Dispatcher.ShutdownGuardIntended` |
| slither_lsp/app/solidity_workspace.py:85-89 | the 'textDocument.didChange' event is subscribed to `on_did_close_text_document` | a didChange for an open document removes it from the open documents; for a document that is not open it raises KeyError | subscribe `on_did_change_text_document`, which leaves the open documents as they are | not executed | `SolidityWorkspace.WiringAsWrittenLosesChange` | `SolidityWorkspace.WiringInjective` |
| slither_lsp/app/solidity_workspace.py:114 | the main loop tests `not self.shutdown`, the bound method, which is always truthy | any run of the loop: it stops at once, so a pending analysis is never started and `_shutdown` is never read | test the `_shutdown` flag and the server's shutdown | not executed | `SolidityWorkspace.PendingNeverClearsAsWritten` | `SolidityWorkspace.LoopStops` |
