# consul cookbook: `consul_config` and `consul_definition` in Dafny

This project models two resources of the Chef cookbook that installs and
configures the Consul agent.

- `consul_config` (module `ConsulConfig`, file `consul_config.dfy`) covers the following.
  - The agent's option record: 51 declared attributes, each with a kind
    (`kind_of: String`, `Integer`, `[Hash, Mash]`, `Array`, or
    `equal_to: [...]`) and an optional default. `Build` checks the given
    options against their attributes and fills in the defaults. The name
    attribute `path` defaults to the resource's name.
  - `tls?`, which is `verify_incoming || verify_outgoing` under Ruby
    truthiness.
  - `to_json`. `Render` restricts the record to the allow-list of agent
    settings, plus the three TLS paths when `tls?` holds. `ConfigDocument` is
    the JSON object that gets pretty-printed, with keys in declaration order.
  - `action(:create)` and `action(:delete)`. Each is a list of converger
    instructions (`EnsureDir`, `WriteFile`, `Delete`) or the error that aborts
    the action before anything runs. They are also methods (`CollectCreate`,
    `CreateAction`, `DeleteAction`) that build the list step by step in the
    order the action declares its resources. `CollectCreate` fetches the
    vault item from a `ChefVault.Vault` at the point where the action does,
    and the list is handed to a `FileSystem.Disk`.
- `consul_definition` (module `ConsulDefinition`) is a service or check definition. It renders
  `{type: parameters.merge(name: name)}` and writes it to
  `/etc/consul/<name>.json`, mode 0640, owned by `consul:consul`, after
  ensuring `/etc/consul`. Module `ConsulDefinitionExamples` works out the
  `redis` service and the `web-api` check of the resource's examples.
- Supporting modules:
  - `Json` holds structured JSON values. Objects are ordered field lists, as Ruby hashes are.
  - `FileSystem` is the converger: a file tree as a map from path to entry.
    - Each instruction has a per-path effect. Effects compose associatively
      and idempotently.
    - From these it proves that a list of instructions is idempotent,
      resumable after a partial run, and that it leaves the paths it does not
      name unchanged.
    - It also models `File.dirname`.
  - `ChefVault` is the secret store. It records every fetch.
  - `Wrappers` holds `Option`, `Result` and `Outcome`.

Two points of the Ruby code shape the model:

- `tls?` (lines 95-97) gates the TLS paths, and line 88 evidently means to
  add them to the keep-list. As written it never does (see Findings).
  `RenderAsWritten` and `ConfigDocumentAsWritten` model the code as written.
  `Render` and `ConfigDocument` model the evident intent. The actions write
  the intended document: with TLS on, the configuration file that
  `CreatePlan` writes names `ca_file`, `cert_file` and `key_file` when they
  are set. The code as written leaves them out.
- The code fetches the vault item (line 108) after declaring the CA
  certificate's directory (line 104). So an unset `ca_file` fails before
  the vault is consulted, and the model keeps that order.

## Model

| member | source | states |
|---|---|---|
| ConsulConfig.AttributeOf | libraries/consul_config.rb:18-82 | each attribute's kind (`kind_of` or `equal_to`) and default, as declared; the definition, whose properties are stated by DefaultAccepted, AttributesPartitioned, FlagOptions |
| ConsulConfig.DefaultAccepted | libraries/consul_config.rb:18-82 | every declared default is a value of its attribute's kind |
| ConsulConfig.AttributesPartitioned | libraries/consul_config.rb:18-90 | every attribute is exactly one of: an allow-listed agent setting, a TLS path, or a bookkeeping attribute (path, user, group, bag_name, bag_item) |
| ConsulConfig.Build | libraries/consul_config.rb:18-82 | fails exactly when some given option has a value its attribute refuses, and lists exactly those options; otherwise the record is valid, holds `path`, keeps every given value, fills every unset defaulted option with its default, sets `path` to the name when not given, and holds nothing else |
| ConsulConfig.WithDefaults | libraries/consul_config.rb:18-82 | given values win over `path := name`, which wins over the declared defaults; nothing else is added |
| ConsulConfig.WithDefaultsValid | libraries/consul_config.rb:18-82 | filling in the defaults keeps a valid record valid |
| ConsulConfig.DefaultHeld | libraries/consul_config.rb:22-82 | with no options given, an option other than `path` is present exactly when it has a default, and then holds it |
| ConsulConfig.BuildDefaults | libraries/consul_config.rb:18-64 | with no options the record is valid: path = name, user/group/bag_name "consul", bag_item "secrets", log_level "INFO" |
| ConsulConfig.BuildDefaultValues | libraries/consul_config.rb:47-82 | with no options: bootstrap_expect 3, server true, watches `{}` |
| ConsulConfig.BuildDefaultsTlsOff | libraries/consul_config.rb:48-81 | with no options `tls?` is false and ca_file, cert_file, key_file, datacenter are unset |
| ConsulConfig.BuildLogLevel | libraries/consul_config.rb:64 | `log_level` is accepted if and only if it is INFO, DEBUG or WARN |
| ConsulConfig.BuildFlag | libraries/consul_config.rb:46-81 | an `equal_to: [true, false]` option is accepted if and only if its value is a boolean |
| ConsulConfig.FlagOptions | libraries/consul_config.rb:46-81 | exactly these thirteen options are boolean flags, `rejoin_after_leave` among them |
| ConsulConfig.Render | libraries/consul_config.rb:86-91 | the filter only drops keys: each kept key keeps its value; every kept key is allow-listed or a TLS path with `tls?` on; every allow-listed key is kept; with `tls?` every TLS path is kept; bookkeeping keys never appear; without `tls?` no TLS path appears |
| ConsulConfig.RenderIdempotent | libraries/consul_config.rb:89-91 | filtering a filtered record changes nothing |
| ConsulConfig.Tls | libraries/consul_config.rb:95-97 | `tls?`: verify_incoming or verify_outgoing holds a value other than `false` (Ruby truthiness; unset is `nil`); the definition, whose properties are stated by TlsIgnoresPaths, TlsOfValid |
| ConsulConfig.TlsIgnoresPaths | libraries/consul_config.rb:95-97 | adding or removing TLS paths never changes `tls?` |
| ConsulConfig.TlsOfValid | libraries/consul_config.rb:95-97 | on a valid record `tls?` holds if and only if verify_incoming or verify_outgoing is `true` |
| ConsulConfig.KeyOrderSound | libraries/consul_config.rb:89 | the key list holds exactly the record's options from a position on, in strictly increasing declaration order |
| ConsulConfig.IndexOfOptAt | libraries/consul_config.rb:18-82 | the option declared at position i is at position i |
| ConsulConfig.OptAtOfIndex | libraries/consul_config.rb:18-82 | positions and options correspond one to one |
| ConsulConfig.FieldsOfKeys | libraries/consul_config.rb:89-92 | for keys the record holds, one field per key, named as the option, holding its value |
| ConsulConfig.ConfigDocument | libraries/consul_config.rb:86-92 | the object `to_json` pretty-prints, with the intended filter: the fields of `Render`'s record in declaration order; the definition, whose properties are stated by ConfigDocumentFields, DocumentHasTlsPaths |
| ConsulConfig.RenderedFields | libraries/consul_config.rb:89-92 | the object of any filtered record has one field per key of the key order, holding the record's value |
| ConsulConfig.ConfigDocumentFields | libraries/consul_config.rb:86-92 | `to_json`'s object has one field per rendered option and none other, in declaration order, named as the attribute, holding the option's value |
| ConsulConfig.KeepListAsWritten | libraries/consul_config.rb:87-88 | the keep-list as written: line 87's symbols, plus one element that is the array of the three TLS symbols when `tls?` holds; the definition, whose properties are stated by AsWrittenIncludes |
| ConsulConfig.RenderAsWritten | libraries/consul_config.rb:89-91 | the `keep_if` filter as written: an option is kept when its own symbol is an element of that list; the definition, whose properties are stated by AsWrittenDropsTlsPaths, AsWrittenOmitsCaFile |
| ConsulConfig.ConfigDocumentAsWritten | libraries/consul_config.rb:86-92 | the object `to_json` pretty-prints as the code stands: the fields of `RenderAsWritten`'s record in declaration order; the definition, whose properties are stated by AsWrittenDocumentLacksTlsPaths |
| ConsulConfig.AsWrittenIncludes | libraries/consul_config.rb:87-90 | as written, `include?` matches exactly the options listed at line 87, whatever `tls?` says |
| ConsulConfig.AsWrittenDropsTlsPaths | libraries/consul_config.rb:88-91 | as written, the output is the intended output minus the TLS paths, with the same values |
| ConsulConfig.AsWrittenOmitsCaFile | libraries/consul_config.rb:88-90 | with verify_incoming true and ca_file set, the intended filter keeps ca_file and the written one drops it |
| ConsulConfig.NoTlsNoPathsEitherReading | libraries/consul_config.rb:88-91 | without `tls?` no TLS path is rendered, under either reading of line 88 |
| ConsulConfig.AsWrittenDocumentLacksTlsPaths | libraries/consul_config.rb:88-92 | as written, the object has one field per option the as-written filter keeps, each holding the option's value, and none of them is a TLS path |
| ConsulConfig.DocumentHasTlsPaths | libraries/consul_config.rb:88-92 | with `tls?` on, the intended object has a field for each TLS path that is set, holding its value |
| ConsulConfig.MainFile | libraries/consul_config.rb:140-149 | the two instructions of the configuration file: ensure dirname(path), then write path with the document, mode 0640, user and group; the definition, whose properties are stated by CreateEndsWithMainFile, CreateWritesConfig |
| ConsulConfig.SecretFiles | libraries/consul_config.rb:104-137 | the six TLS instructions: each file's directory, then the file with its vault field, mode and owners; the key is sensitive; the definition, whose properties are stated by CreateWithTls, CreateInstallsSecrets |
| ConsulConfig.CreateInstructions | libraries/consul_config.rb:99-151 | `action(:create)` for a given document: without TLS the main file only; with TLS the errors in declaration order (ca_file unset, vault item missing, cert_file unset, key_file unset), otherwise the secret files and then the main file; the definition, whose properties are stated by CreateFailure, CreateWithoutTls, CreateWithTls, CreateFrame, CreateIdempotent |
| ConsulConfig.CreatePlan | libraries/consul_config.rb:99-151 | `action(:create)` with the configuration file holding `ConfigDocument`; the definition, whose properties are stated by CreateAction |
| ConsulConfig.DeletePlan | libraries/consul_config.rb:153-169 | `action(:delete)`: with TLS, delete cert_file and then key_file (an error if either is unset); then delete path; the definition, whose properties are stated by DeleteFailure, DeleteRemoves, DeleteKeepsCaFile, DeleteAction |
| ConsulConfig.CreateFailure | libraries/consul_config.rb:101-131 | `create` fails if and only if TLS is on and ca_file, the vault item, cert_file or key_file is missing; it fails with "item not found" if and only if TLS is on, ca_file is set and the item is missing |
| ConsulConfig.CreateWithoutTls | libraries/consul_config.rb:140-149 | without TLS the instructions are exactly: ensure dirname(path), then write path with the document, mode 0640, user and group |
| ConsulConfig.CreateWithTls | libraries/consul_config.rb:101-149 | with TLS, eight instructions in this order: dir(ca_file), ca_file gets `ca_certificate` mode 0644; dir(cert_file), cert_file gets `certificate` 0644; dir(key_file), key_file gets `private_key` 0640 and is sensitive; all owned by user and group; then the two main-file instructions |
| ConsulConfig.CreateEndsWithMainFile | libraries/consul_config.rb:140-149 | every successful `create` ends with dir(path) and the main file, and deletes nothing |
| ConsulConfig.CreateReadsOneItem | libraries/consul_config.rb:108 | `create` depends on the vault only through the item (bag_name, bag_item) |
| ConsulConfig.CreateWritesConfig | libraries/consul_config.rb:144-149 | after `create` the main file holds the document, mode 0640, owned by user and group |
| ConsulConfig.CreateInstallsSecrets | libraries/consul_config.rb:109-137 | after `create` with TLS, the CA certificate, certificate and key hold their vault fields with modes 0644, 0644, 0640, owned by user and group |
| ConsulConfig.CreateFrame | libraries/consul_config.rb:99-151 | `create` leaves every path it does not name unchanged |
| ConsulConfig.CreateIdempotent | libraries/consul_config.rb:99-151 | converging `create` a second time, after a full or an interrupted run, changes nothing more |
| ConsulConfig.DeleteFailure | libraries/consul_config.rb:155-163 | `delete` fails if and only if TLS is on and cert_file or key_file is unset |
| ConsulConfig.DeleteRemoves | libraries/consul_config.rb:153-169 | a successful `delete` ends with exactly cert_file, key_file (TLS only) and path removed, and every other path as it was |
| ConsulConfig.DeleteKeepsCaFile | libraries/consul_config.rb:155-167 | `delete` leaves the CA certificate as it was |
| ConsulConfig.CollectCreate | libraries/consul_config.rb:100-150 | building the instruction list step by step gives `CreateInstructions`; the vault is asked exactly once, for (bag_name, bag_item), when TLS is on and ca_file is set, and otherwise never |
| ConsulConfig.CreateAction | libraries/consul_config.rb:99-151 | passes if and only if the plan exists; on failure the error is the plan's and the disk is unchanged; on success the disk is the plan applied to the old disk; the vault fetches are as for `CollectCreate` |
| ConsulConfig.DeleteAction | libraries/consul_config.rb:153-169 | passes if and only if the delete plan exists; on failure the disk is unchanged; on success the disk is the plan applied to the old disk |
| ChefVault.Vault.Fetch | libraries/consul_config.rb:108 | one fetch is recorded; it returns the item if and only if the store holds it |
| FileSystem.Step | libraries/consul_config.rb:104-149 | one instruction changes the entry at its own path, by its per-path effect, and no other |
| FileSystem.Then | libraries/consul_config.rb:100-150 | the combined effect is the second run after the first |
| FileSystem.ThenIdempotent | libraries/consul_config.rb:100-150 | every per-path effect repeated is itself |
| FileSystem.Apply | libraries/consul_config.rb:100-150 | the converger runs the declared resources one at a time, in order; the definition, whose properties are stated by ApplyFrame, ApplyLastTouch, ApplyIdempotent, Disk.Converge |
| FileSystem.ApplyFrame | libraries/consul_config.rb:100-150 | paths a plan does not name keep their entries |
| FileSystem.ApplyLastTouch | libraries/consul_config.rb:100-150 | a path ends as the last instruction naming it leaves it |
| FileSystem.WriteLands | libraries/consul_config.rb:109-149 | a file whose write is not followed by another instruction on its path has that write's content, mode, owner and group |
| FileSystem.ApplyDeletions | libraries/consul_config.rb:153-169 | a plan of deletions removes exactly the paths it names |
| FileSystem.ResumeAfterPartialRun | libraries/consul_config.rb:100-150 | re-running a plan after any prefix of it ran gives the same tree as one run |
| FileSystem.ApplyIdempotent | libraries/consul_config.rb:100-150 | converging twice equals converging once |
| FileSystem.Dirname | libraries/consul_config.rb:104 | `File.dirname`: "." without a slash; "/" when the only slash is the leading one; otherwise the prefix before the last slash |
| FileSystem.DirnameOfJoin | libraries/consul_config.rb:140 | the dirname of `dir/name`, for a non-empty `dir` and a name without '/', is `dir` |
| FileSystem.Disk.Converge | libraries/consul_config.rb:100-150 | running the instructions one at a time leaves the disk as `Apply` of the plan to the old disk |
| ConsulDefinition.ParseType | test/spec/libraries/consul_definition_spec.rb:10 | the type is accepted if and only if it is "service" or "check"; the parsed type's name is the word given; a refused word is returned in the error |
| ConsulDefinition.ParseTypeName | test/spec/libraries/consul_definition_spec.rb:35 | parsing a type's name gives the type back |
| ConsulDefinition.WithName | test/spec/libraries/consul_definition_spec.rb:19-26 | after the merge `name` maps to the definition's name and every other key reads as in the parameters |
| ConsulDefinition.WithNameKeys | test/spec/libraries/consul_definition_spec.rb:20-25 | without a `name` parameter the merge is the parameters followed by `name`; with one the keys are unchanged |
| ConsulDefinition.WithNameKeySet | test/spec/libraries/consul_definition_spec.rb:19-26 | the merge's keys are the parameters' keys and `name` |
| ConsulDefinition.WithNameUnique | test/spec/libraries/consul_definition_spec.rb:19-26 | the merge of a hash has no key twice |
| ConsulDefinition.DefinitionMerge | test/spec/libraries/consul_definition_spec.rb:19-28 | the document has the single key `type`, holding the parameters with `name` set and every other parameter unchanged, keys unique |
| ConsulDefinition.DefinitionKeyOrder | test/spec/libraries/consul_definition_spec.rb:20-25 | the caller's keys keep their order and `name` comes last |
| ConsulDefinition.ServiceAndCheckSameShape | test/spec/libraries/consul_definition_spec.rb:19-45 | a service and a check differ only in the top-level key, "service" or "check" |
| ConsulDefinition.DefinitionPath | test/spec/libraries/consul_definition_spec.rb:17 | the definition's file: `/etc/consul/<name>.json`; the definition, whose properties are stated by DefinitionInConfigDir, ExamplePaths |
| ConsulDefinition.DefinitionDocument | test/spec/libraries/consul_definition_spec.rb:19-28 | the file's document: `{type: parameters.merge(name: name)}`; the definition, whose properties are stated by DefinitionMerge, DefinitionKeyOrder |
| ConsulDefinition.DefinitionPlan | test/spec/libraries/consul_definition_spec.rb:15-18 | ensure `/etc/consul`, then write the file with the document, mode 0640, owned by consul:consul; the definition, whose properties are stated by DefinitionWritten |
| ConsulDefinition.DefinitionInConfigDir | test/spec/libraries/consul_definition_spec.rb:15-17 | for a name without '/', the directory of `/etc/consul/<name>.json` is `/etc/consul` |
| ConsulDefinition.DefinitionWritten | test/spec/libraries/consul_definition_spec.rb:15-18 | afterwards `/etc/consul` is a directory and the file holds the document, mode 0640, owned by consul:consul; every other path is unchanged; converging again changes nothing |
| ConsulDefinitionExamples.ExamplePaths | test/spec/libraries/consul_definition_spec.rb:17 | `redis` is written to `/etc/consul/redis.json` and `web-api` to `/etc/consul/web-api.json` |
| ConsulDefinitionExamples.RedisService | test/spec/libraries/consul_definition_spec.rb:9-26 | the `redis` service document is `{service: {tags, address, port, interval, name: "redis"}}` in that order |
| ConsulDefinitionExamples.WebApiCheck | test/spec/libraries/consul_definition_spec.rb:34-49 | the `web-api` check document is `{check: {http, ttl, name: "web-api"}}` in that order |

## Left out

- The Chef and Poise machinery is not modelled. This covers `include Poise`,
  `provides`, attribute registration, `notifying_block` notifications and
  `include_recipe 'chef-vault::default'`. An action is its instruction list
  plus the converger that runs it.
- `Json.Value` has no `null` and no floating-point number. A Hash or Array
  option holding `nil` or a Float, which `JSON.pretty_generate` would emit,
  has no counterpart. No property depends on such values.
- JSON text is not modelled. `to_json` yields the structured object, and the
  whitespace of `JSON.pretty_generate` and its `quirks_mode` option are library
  behaviour.
- `to_hash` is assumed to list options in declaration order. Its order is
  framework behaviour, and the allow-list filter keeps whatever order it has.
- Options the resource does not declare cannot be written down. The option
  names form an enumeration, so Chef's rejection of an unknown attribute has
  no counterpart.
- Chef rejects a wrong-kind value as soon as it is assigned. The model
  collects all such values and reports them at once, through
  `BuildError.Invalid`.
- `rejoin_after_leave`: line 74 declares it with the malformed key
  `kind_of:equal_to:`. The model treats it as the evident boolean flag
  with default `false`.
- FileSystem.Dirname: does not model `File.dirname` on paths with trailing or
  repeated slashes, or on the empty path.
- `EnsureDir` creates only the named directory. Ancestors (`recursive true`),
  permissions, ownership enforcement and disk errors belong to the converger.
- `sensitive true` only suppresses logging, so the model records the flag and nothing else.
- When the vault item lacks a field, `content nil` keeps the file's content.
  A new file starts empty.
- ConsulConfig.DeleteAction: an unset cert_file or key_file with TLS on is
  modelled as an error raised before anything is deleted. Chef's handling of
  a `file nil` resource is framework behaviour.
- ConsulConfig.CreateInstallsSecrets: requires that no later instruction names
  the same path. When two TLS paths, or a TLS path and the configuration file,
  coincide or are each other's directories, the later write wins. The
  frame, idempotence and order lemmas still cover that case.
- ConsulConfig.DeleteKeepsCaFile: requires that the CA certificate's path
  differs from the three deleted paths. When it coincides with one of them,
  it is deleted as that file.
- ConsulConfig.CreatePlan: the configuration file holds `ConfigDocument`,
  the intended `to_json`, rather than `ConfigDocumentAsWritten`, the
  object as the code stands. With TLS on they differ in the TLS paths only
  (`AsWrittenDocumentLacksTlsPaths`, `DocumentHasTlsPaths`). Every `create`
  lemma is stated for any document, so it holds for
  `CreateInstructions(c, ConfigDocumentAsWritten(c), store)` too.
- ConsulDefinition: libraries/consul_definition.rb, the resource's
  implementation, is not part of this model. The renderer is modelled from
  the resource's examples and their expected files.
  `ParseType`'s refusal of other types follows the two types the resource
  supports.
- The examples' expected text also carries a top-level `quicks_mode: true`.
  This is a typo for the serializer's `quirks_mode` option, and the renderer
  does not emit it.

## Findings

| source | as written | input that shows it | evidently intended | confidence | as-written member | corrected member |
|---|---|---|---|---|---|---|
| libraries/consul_config.rb:88 | `for_keeps << %i{ca_file cert_file key_file}` appends the three-symbol array as a single element. `include?` at line 90 then never matches `ca_file`, `cert_file` or `key_file`, so the TLS paths are never rendered. | `verify_incoming: true, ca_file: '/etc/consul/ca.pem'`. `ca_file` is missing from the output. | Concatenation (`for_keeps += ...` or `concat`), so that the three paths are rendered when `tls?` holds. | not executed | ConsulConfig.AsWrittenOmitsCaFile | ConsulConfig.Render |
