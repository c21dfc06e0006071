# izysafe Terraform provider: access-policy resource and input validators

This project models two parts of the izysafe Terraform provider and proves
properties about them.

The first is the `ysafe_access_policy` resource. It is a folder under the
root of the izysafe store, and its policy is a list of
(attribute, bytes) pairs.
- **Lookup.** Every operation first looks the folder up by the path
  `"/" + name`.
- **Create.** Creates the folder when the lookup says it is not found.
- **Delete.** Removes the folder when the lookup succeeds.
- **Read and import.** Scan the folder's attribute list, decode the first
  known attribute with the CBOR decoder, and write the result into
  Terraform state.
- **Update.** Encodes the changed and present fields:
  - integers become eight big-endian bytes of `uint64(value)`;
  - the boolean becomes one byte.

  It then builds the policy and drops it.

The second part is the two schema validators, `ValidPin` and
`ValidateNumericString`.

Modules:
- `Wrappers`: `Option` and `Result`.
- `BigEndian`: bytes, `uint64`, the big-endian encoding and its inverse, and `PutUint64` over an 8-byte array.
- `Wire`: lookup statuses, the requests sent, the server replies, and the errors an operation reports.
- `PolicyCodec`: the update's attribute-list builder, the read scan, and the write-back into state.
- `AccessPolicy`: lookup, create, read, import, update and delete.
- `Validators`: the two validators.

How the outside world is represented:
- **Server and client.** These are not modelled. Each operation takes as
  parameters whether a client exists and the replies it would receive. It
  returns the requests it sends, in order.
- **Terraform state.** A map from attribute name to value. Update reads it
  as the attributes `GetOk` reports as set. Read and import write into it
  with `Set`, which may store a zero value (a TTL of 0, a `false` boolean);
  `GetOk` would report such a value as unset, and the map does not model
  that filtering. A separate set holds the attributes `HasChange` reports
  as changed.
- **Protobuf and CBOR decoders.** These are abstract, possibly failing
  functions (`Decoders`).

### Quirks of the code the model keeps

The model follows the code in each of these cases:
- Update gates `default_ttl_for_files` on the change flag of
  `remove_older_versions`, not on its own.
- The read scan stops at the first known name, so at most one attribute is
  decoded.
- The three integer locals go to the decoder by value, so they stay 0 and
  are never written back.
- The policy update builds is never sent.
- Update encodes in fixed-width big-endian while read decodes CBOR. So no
  round trip between update and read holds. The only round trip proved is
  between the big-endian encoding and its own inverse.

## Model

| member | source | states |
|---|---|---|
| BigEndian.ToUint64 | internal/provider/access_policy_resource.go:368 | Go's `uint64(int)` keeps non-negative values and adds 2^64 to negative ones |
| BigEndian.FromToBigEndian | internal/provider/access_policy_resource.go:368-370 | reading back the n big-endian bytes written for a value below 256^n gives the value |
| BigEndian.ToFromBigEndian | internal/provider/access_policy_resource.go:368-370 | every byte string is the encoding of the number it denotes (the encoding is onto) |
| BigEndian.ToBigEndianInjective | internal/provider/access_policy_resource.go:368-370 | two values that fit in n bytes have different encodings |
| BigEndian.Uint64Bytes | internal/provider/access_policy_resource.go:368-370 | the bytes of a uint64 are exactly 8 and read back big-endian to the value |
| BigEndian.PutUint64 | internal/provider/access_policy_resource.go:370 | filling the 8-byte buffer leaves in it exactly the big-endian bytes of the value |
| PolicyCodec.FieldOf | internal/provider/access_policy_resource.go:362-420 | an attribute name denotes the field with that name, and a field's name always denotes it |
| PolicyCodec.NamesDiffer | internal/provider/access_policy_resource.go:362-420 | the five attribute names are pairwise different |
| PolicyCodec.KnownNamesAreFields | internal/provider/access_policy_resource.go:122-152 | the names the scan compares against are exactly the names of the five fields |
| PolicyCodec.EncodeField | internal/provider/access_policy_resource.go:363-427 | the bool field gives one byte, 1 iff true and 0 iff false; an int field gives 8 bytes reading back to value mod 2^64; a value of the wrong type gives the bool-assertion failure or the "unexpected type" error |
| PolicyCodec.EmitField | internal/provider/access_policy_resource.go:362-433 | a block appends nothing iff its change flag or presence fails; it fails iff it is selected and its value has the wrong type; otherwise it appends one mapping named after the field that holds the field's encoding |
| PolicyCodec.BuildMappingsFollowSelection | internal/provider/access_policy_resource.go:361-433 | the built list has one mapping per selected field, in the fields' order, each named after its field and holding its value's encoding |
| PolicyCodec.SelectedAmongRanked | internal/provider/access_policy_resource.go:361-433 | selecting fields keeps them in FieldOrder |
| PolicyCodec.PolicyInFieldOrder | internal/provider/access_policy_resource.go:361-433 | the policy has at most five mappings, in the order max_size, max_file_size, max_file_versions, remove_older_versions, default_ttl_for_files, with no name twice |
| PolicyCodec.PolicyEncodesSelected | internal/provider/access_policy_resource.go:361-433 | mapping i carries the name and the encoded value of the i-th selected field; a field's name is in the policy iff the change flag that gates it (remove_older_versions' for default_ttl_for_files) and its own presence hold |
| PolicyCodec.BuildMappingsFails | internal/provider/access_policy_resource.go:361-433 | building over any field list fails iff a selected field in it holds a value of the wrong type |
| PolicyCodec.PolicyFails | internal/provider/access_policy_resource.go:362-433 | update's building fails iff some selected field holds a value of the wrong type: a non-integer in one of the four integer blocks, or a non-boolean remove_older_versions |
| PolicyCodec.BuildMappingsDependsOnSelection | internal/provider/access_policy_resource.go:361-433 | two plans with the same values and the same selected fields build the same list |
| PolicyCodec.TtlGatedByRemoveOlderVersions | internal/provider/access_policy_resource.go:419-420 | default_ttl_for_files is emitted iff remove_older_versions changed and the TTL is set; adding or removing the TTL's own change flag never changes the result |
| PolicyCodec.AppendIntMapping | internal/provider/access_policy_resource.go:362-433 | one integer block (max_size, max_file_size, max_file_versions or the TTL) fails exactly when its own field is selected and not an integer, and then with the error the whole build gives; otherwise the list grows by exactly that block's own mapping (none if unselected), as the build does at that block |
| PolicyCodec.AppendBoolMapping | internal/provider/access_policy_resource.go:407-418 | the remove_older_versions block fails exactly when that field is selected and not a boolean, and then with the error the whole build gives; otherwise the list grows by exactly its own mapping (a one-byte buffer set to 1 for true, 0 for false), as the build does |
| PolicyCodec.EncodeInt | internal/provider/access_policy_resource.go:369-370 | the 8-byte buffer holds the big-endian bytes of uint64(i) |
| PolicyCodec.BuildPolicy | internal/provider/access_policy_resource.go:361-433 | the five blocks in source order, with the TTL block reading the remove_older_versions change flag, return exactly the built list or its error |
| PolicyCodec.FirstKnownEntry | internal/provider/access_policy_resource.go:121-155 | the position found holds a known name and no earlier entry does; none is found iff no entry holds a known name |
| PolicyCodec.FirstKnownEntrySkips | internal/provider/access_policy_resource.go:121-155 | entries with unknown names in front shift the position found by their number |
| PolicyCodec.DecodeAttribute | internal/provider/access_policy_resource.go:122-152 | decoding fails only with "data corrupted", and iff the decoder for the entry fails; an unknown name gives nothing; the three integer results stay 0; a decoded remove_older_versions or default_ttl_for_files value is exactly what its decoder produced, and a non-nil bool or TTL only ever comes from its own decoder on its own name |
| PolicyCodec.KeyList | internal/provider/access_policy_resource.go:245-248 | the key list has one entry per attribute, holding its name, in order |
| PolicyCodec.ScanPolicy | internal/provider/access_policy_resource.go:249-288 | the for/break scan over the key list returns exactly the decode of the first entry with a known name, or nothing when there is none |
| PolicyCodec.ScanSkipsUnknown | internal/provider/access_policy_resource.go:254-288 | entries with unknown names in front of the list do not change the scan |
| PolicyCodec.ScanFirstMatchWins | internal/provider/access_policy_resource.go:254-288 | after unknown names, the first known entry alone decides the scan, whatever follows it |
| PolicyCodec.ScanOfUnknownOnly | internal/provider/access_policy_resource.go:249-288 | a list with no known name decodes to nothing |
| PolicyCodec.ReportWrites | internal/provider/access_policy_resource.go:289-303 | writing back sets each field whose local is > 0 or non-nil to that value and leaves every other attribute unchanged |
| PolicyCodec.ScanReportsAtMostOne | internal/provider/access_policy_resource.go:249-303 | after a successful scan, none of max_size, max_file_size and max_file_versions is written, and at most one of remove_older_versions and default_ttl_for_files |
| AccessPolicy.GetMetaFrom | internal/provider/access_policy_resource.go:64-86 | with a client, exactly one lookup of "/" + name (not trashed, type 0) is sent; without one nothing is sent and the error is "client is nil"; a send error gives the send-failure error and a nil reply the "empty response" error; otherwise the reply is returned |
| AccessPolicy.Create | internal/provider/access_policy_resource.go:178-220 | success iff the lookup says not found and the create reply is non-nil with status 0; then the id is set to the name, otherwise the state is unchanged; the requests sent are exactly the lookup followed, iff the lookup says not found, by CreateFolder{name, "/", 1}, and nothing without a client; no client is the nil-client error and a failed lookup its own error; a found folder is "already exists"; a create reply that fails to send, is nil or has a non-zero status is "create folder failed"; another status is a backend error |
| AccessPolicy.FolderAttributes | internal/provider/access_policy_resource.go:225-244 | the checks before the scan: the lookup's own error when it fails; "folder doesn't exist" for a non-zero status; "not a folder" without folder metadata; "wrong response" when the policy blob does not parse; otherwise its attribute list |
| AccessPolicy.Read | internal/provider/access_policy_resource.go:222-308 | only the lookup is sent; success iff the folder is found, is a folder, its policy parses and the scan succeeds; then the state is the scan written back, otherwise unchanged; id, name and change flags never change |
| AccessPolicy.ReadChangesAtMostOneAttribute | internal/provider/access_policy_resource.go:249-303 | a successful read changes no attribute but remove_older_versions and default_ttl_for_files, and when it changes remove_older_versions it leaves default_ttl_for_files alone |
| AccessPolicy.ImportState | internal/provider/access_policy_resource.go:88-176 | without a client, no resource and nothing sent; otherwise one lookup of "/" + id and exactly one resource; success iff read on the id would succeed, giving that state; on failure the name is set to the id exactly when the folder was found and is a folder |
| AccessPolicy.Update | internal/provider/access_policy_resource.go:348-440 | only the lookup is ever sent (the built policy is dropped); success iff the lookup has status 0 and building succeeds; then the id is set to the name, otherwise the state is unchanged; no client is the nil-client error and a failed lookup its own error; another status is "folder doesn't exist"; a build failure is that failure |
| AccessPolicy.Delete | internal/provider/access_policy_resource.go:310-346 | the state is untouched; the requests sent are exactly the lookup followed, iff it has status 0, by RemoveFolder{"/" + name, false}, and nothing without a client; success iff that remove's reply is non-nil with status 0; no client is the nil-client error and a failed lookup its own error; a remove that fails to send is the send-failure error, a nil reply or non-zero status "remove folder failed"; another lookup status is "folder doesn't exist" |
| Validators.AllDigitsMeansEveryCharIsDigit | internal/provider/helper.go:15 | the recursive digit check holds iff every character is an ASCII digit |
| Validators.ValidPin | internal/provider/helper.go:8-25 | no warnings ever; no errors iff the input is a string of exactly six ASCII digits; a non-string gives exactly "expected pin to be a string"; any other rejection is exactly one "must be a 6-digit number" error for the key |
| Validators.ValidateNumericString | internal/provider/helper.go:27-44 | no warnings ever; no errors iff the input is a non-empty string of ASCII digits; a non-string gives exactly one "expected ... to be a string" error for the key; any other rejection is exactly one "must contain only numeric digits" error |
| Validators.EmptyStringIsNotNumeric | internal/provider/helper.go:34-43 | the empty string is rejected with exactly the "numeric digits" error |
| Validators.PinIsNumeric | internal/provider/helper.go:15-34 | every value ValidPin accepts, ValidateNumericString accepts; "1" shows the converse fails |
| Validators.PinMessageQuotesKey | internal/provider/helper.go:21-23 | the message for a rejected pin string starts with the key in double quotes |

## Left out

- The WebSocket client in internal/client/client.go is not part of this model: dialling, the pinned TLS CA pool, the mutex and the process-wide client. Sending is abstract: the operation's reply is a parameter, and "client is nil" is a boolean parameter.
- Protobuf and CBOR wire formats are abstract decoders. The integer fields are decoded into non-pointer destinations, which the CBOR library (fxamacker/cbor) always rejects with an error, so in the program as written a first known entry for max_size, max_file_size or max_file_versions always ends read and import with "data corrupted". The abstract integer decoder covers this as the decoder that always fails; the model also keeps that any decoded integer would be dropped.
- Terraform SDK behaviour (schema declarations, `Get`, `GetOk`, `HasChange`, `Set`, diagnostics) is a plain state map plus a set of changed names. `GetOk` treating zero values as unset is taken as already reflected in that map.
- A reply of the wrong operation kind makes the Go code dereference nil and panic. The replies are typed per operation, so this case is left out.
- Error messages are constructors of `Wire.Error`, not their texts. In the validators, `%q` quoting is modelled as plain double quotes, without Go's escaping of special characters.
- The regex compile-error branches of helper.go (:16-19, :35-38) are unreachable, because both patterns are constants.
- `binary.BigEndian.PutUint64` is a library call. `BigEndian.PutUint64` models its effect with a loop that fills the buffer from the last byte.
- internal/provider/access_token_resource.go, provider.go, main.go and the test files are not part of this model. They are request assembly for the token resource, plugin registration, and acceptance tests against the live endpoint.
- `Wire.OtherStatus` carries any non-zero code. Its code is not kept apart from OBJECT_NOT_FOUND's, because the enum's numbering is not part of this model; `ObjectNotFound` stands for that status.
- `Wire.BoolAssertionPanic`: in update, `v.(bool)` on a non-boolean value panics the provider. The model has it as an ordinary error that leaves the state unchanged. The panic itself and its effect on the plugin process are not modelled.
