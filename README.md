# Sequin objlib deserializer, in Dafny

This project models the parts of the Thumper game-file tools that decode data rather than move it around.

- **The objlib deserializer** (`file_parser.py`). A forward-only cursor moves over a byte buffer. Fixed-order readers turn the bytes into Python values: dicts, lists, strings, ints and float32 bit patterns. Each reader is picked from a table keyed by a 4-byte type hash. The model covers the primitive readers, components, trait paths, keyframe data points, sequencer objects and the ten object readers that exist. It also covers the level object with its list of steps ended by a false flag, and the outer dispatch over file kind, objlib kind and declarations.
- **The older Leaf-only reader** (`leaf_parser.py`). It reads the same bytes through differently split functions: sections, and a wrapper around each sequencer object's body.
- **The text emitter** `format_fake_json`, which is shared by both parsers.
- **Two parts of the sample extractor** (`thumper_sample_extractor.py`): the 32-bit name hash `hash32`, and the loop in `find_file_references` that finds embedded paths.

## How it is built

Each reader has two layers:

- a pure meaning, `XAt(s, p)`. It maps the buffer `s` and a start position `p` to an error or to a value plus the next position.
- an imperative reader, `ReadX(c)`. It advances a `Cursor` object in place, as the Python readers advance their file. Its contract says that it *follows* `XAt`. On success it returns that value and leaves the cursor at that position. On failure it returns that error.

Counted lists use one generic meaning, `Primitives.Repeat`. The `for _ in range(n): ….append(…)` loops are `while` loops whose invariant is `Repeat` of the items read so far. The dict that `read_data_points` updates in place is an insertion-ordered sequence of pairs, so key order, last-write-wins and `**x` spreads behave as in Python.

The properties are stated next to these meanings and proved as lemmas:

- exact field widths;
- injective and invertible hex and UTF-8 encodings;
- dispatch tables that register exactly their codes;
- last-write-wins for data points;
- the sentinel of the step list;
- declaration-first dispatch in an objlib;
- agreement between the two Leaf readers;
- the emitter's line shape and when it succeeds;
- the hash's arithmetic;
- the order, shape and stopping condition of the path scan.

Modules, in dependency order:

| module | covers |
|---|---|
| Outcomes | results, decode errors, decoded value plus next position |
| Bytes | `byte`, struct `'<i'`, hex text of bytes and of naturals |
| Utf8 | strict UTF-8 encode and decode |
| PyValues | the Python values built, dict `d[k] = v` and `**x` |
| Primitives | `Cursor`, `read_int` … `read_file_path`, `Repeat` |
| Components | component readers and their table |
| Traits | trait paths, data points, sequencer objects |
| Objects | Leaf, Master and its groupings, Gate, Samp, Spn, Tex, Mat, Mesh, Path |
| Lvl | the level object, steps, loops |
| Objlib | libraries, external objects, declarations, objects, file dispatch |
| FakeJson | `format_fake_json` |
| LeafParser | the Leaf-only reader |
| SampleExtractor | `hash32` and the path scan |

## Model

| member | source | states |
|---|---|---|
| Bytes.Int32 | file_parser.py:9-10 | struct '<i': the value lies in the signed 32-bit range and is negative exactly when the top bit of the last byte is set |
| Bytes.Int32OfBytes | file_parser.py:9-10 | packing a signed 32-bit value and unpacking it with '<i' gives the value back |
| Bytes.BytesOfInt32 | file_parser.py:9-10 | every four-byte pattern is the encoding of the int '<i' reads from it |
| Bytes.Hex | file_parser.py:28 | bytes.hex() yields two lowercase hex digits per byte |
| Bytes.UnhexHex | file_parser.py:28 | bytes.hex() is inverted by decoding its digit pairs, so no information is lost |
| Bytes.HexInjective | file_parser.py:28 | different byte strings have different hex text |
| Bytes.Reverse | file_parser.py:27 | reversed(): same length, element i is element n-1-i of the input |
| Bytes.ReverseReverse | file_parser.py:27 | reversing twice gives the input back |
| Bytes.NatText | thumper_sample_extractor.py:23 | digits of a natural in a base: at least one character, every one a lowercase hex digit |
| Bytes.TextValueOfNatText | thumper_sample_extractor.py:23 | the digit text reads back as the number it was made from |
| Bytes.NatTextNoLeadingZero | thumper_sample_extractor.py:23 | the text starts with '0' exactly when the number is zero (no zero padding) |
| Bytes.NatTextLength | thumper_sample_extractor.py:23 | a number below base^k has at most k digits |
| Bytes.IntText | leaf_parser.py:225-226 | str() of an int gives a non-empty text |
| Bytes.IntTextValue | leaf_parser.py:225-226 | str() of an int is a sign and decimal digits that read back as the int |
| Utf8.DecodeFirst | file_parser.py:23 | one well-formed UTF-8 sequence at the start takes 1 to 4 bytes, all inside the input |
| Utf8.Decode | file_parser.py:23 | bytes.decode() yields at most one character per byte, or fails on ill-formed input |
| Utf8.EncodeChar | file_parser.py:23 | one character encodes to 1 to 4 bytes |
| Utf8.Encode | thumper_sample_extractor.py:43-44 | str.encode() yields at least one byte per character |
| Utf8.DecodeFirstOfEncodeChar | file_parser.py:23 | the decoder reads back exactly the character the encoder wrote, whatever bytes follow |
| Utf8.EncodeCharOfDecodeFirst | file_parser.py:23 | the sequence the decoder accepts is exactly the encoding of the character it yields |
| Utf8.DecodeEncode | file_parser.py:23 | decode(encode(s)) == s for every text |
| Utf8.EncodeDecode | file_parser.py:23 | encode(decode(b)) == b whenever b decodes: accepted bytes are the one encoding of their text |
| PyValues.Record | file_parser.py:49-55 | a dict display with string keys has exactly those keys in order and the given values |
| PyValues.Lookup | file_parser.py:173 | d.get(k) finds a value exactly when k is a key of d |
| PyValues.Put | file_parser.py:173 | d[k] = v: k then maps to v, other keys keep their values, a new key is appended and existing keys keep their places |
| PyValues.PutKeepsUnique | file_parser.py:173 | d[k] = v keeps the keys distinct |
| PyValues.PutAllUnique | file_parser.py:170-173 | the dict built by repeated d[k] = v from {} never holds a key twice |
| PyValues.PutAllSameKey | file_parser.py:170-173 | writing one key repeatedly leaves a single entry holding the last value written |
| PyValues.PutAllLookup | file_parser.py:170-173 | every key holds the value written last under it (last write wins) |
| PyValues.PutAllKeys | file_parser.py:170-173 | the keys are those written, so there are never more entries than writes |
| PyValues.LastWriteUnrepeated | file_parser.py:173 | a write that no later write overrides is the value of its key |
| PyValues.LastWriteAbsent | file_parser.py:430 | a key written nowhere in the pairs has no last write |
| PyValues.PutEachLookup | file_parser.py:92 | after `**x`, a key holds x's value when x has it, else its old value |
| PyValues.PutEachFresh | file_parser.py:92 | spreading a dict whose keys are new and distinct appends its entries in order |
| PyValues.PutNew | file_parser.py:173 | d[k] = v with a new key appends (k, v) |
| Primitives.Cursor.Read | file_parser.py:10 | file.read(n) returns the next n bytes and advances by n, or fails with Truncated when they are not all there or n is negative |
| Primitives.BytesAt | file_parser.py:10 | the n bytes at p exist exactly when 0 <= n and p+n fits; the result is that slice and ends at p+n |
| Primitives.IntAt | file_parser.py:9-10 | read_int succeeds exactly when 4 bytes remain, consumes 4 and yields a signed 32-bit value |
| Primitives.IntAtBytes | file_parser.py:9-10 | the int read is the one whose little-endian two's-complement encoding is the four bytes |
| Primitives.IntAtEncoded | file_parser.py:9-10 | an encoded int32 reads back as itself from any surrounding buffer |
| Primitives.ShortAt | file_parser.py:12-13 | with 4 bytes present the '<h' unpack of a 4-byte read always fails; with fewer the read is Truncated (see Left out for the 2-byte case) |
| Primitives.FloatAt | file_parser.py:15-16 | read_float succeeds exactly when 4 bytes remain, consumes 4 and yields the float32 whose little-endian bit pattern is those 4 bytes |
| Primitives.BoolAt | file_parser.py:18-19 | read_bool succeeds exactly when a byte remains, consumes 1 and is true exactly for a nonzero byte |
| Primitives.StringAt | file_parser.py:21-23 | read_string consumes 4 plus the non-negative size; it fails only with Truncated or InvalidText |
| Primitives.StringAtText | file_parser.py:21-23 | the text read encodes back to the payload bytes, and with the payload present the read fails exactly when it is not UTF-8 |
| Primitives.StringAtEncoded | file_parser.py:21-23 | a string laid out as size plus UTF-8 bytes reads back as itself |
| Primitives.HashAt | file_parser.py:25-28 | read_hash succeeds exactly when 4 bytes remain, consumes 4 and yields 8 characters |
| Primitives.HashAtText | file_parser.py:25-28 | the type code is 8 lowercase hex digits that spell the four bytes in reversed order |
| Primitives.HashAtInjective | file_parser.py:25-28 | equal type codes come from equal four-byte groups |
| Primitives.VectorAt | file_parser.py:30-34 | read_vector succeeds exactly when 12 bytes remain, consumes 12 and yields the 3-tuple of the floats at p, p+4 and p+8 |
| Primitives.ColorAt | file_parser.py:36-41 | read_color succeeds exactly when 16 bytes remain, consumes 16 and yields the 4-tuple of the floats at p, p+4, p+8 and p+12 |
| Primitives.TransformKeysDistinct | file_parser.py:49-55 | the five transform keys are distinct |
| Primitives.TransformSpread | file_parser.py:89-93 | `**transform` into a dict without transform keys appends the five entries in order |
| Primitives.TransformAt | file_parser.py:43-55 | read_transform succeeds exactly when 60 bytes remain, consumes 60 and yields a dict with keys pos, rot_x, rot_y, rot_z, scale, the i-th holding the vector read at p + 12i |
| Primitives.FilePathAt | file_parser.py:57-60 | read_file_path succeeds exactly when the int and the string read; it yields the bare path for root 0 and the (root, path) pair otherwise |
| Primitives.Repeat | file_parser.py:117-123 | a count-prefixed list of k items has exactly k items |
| Primitives.RepeatErrorSticks | file_parser.py:120-122 | an item that fails makes the whole list fail with its error |
| Primitives.RepeatStep | file_parser.py:120-122 | one more item read extends the list by that item, from where the previous ended |
| Primitives.RepeatAdvances | file_parser.py:120-122 | a list of items that stay in the buffer stays in the buffer |
| Primitives.RepeatAll | file_parser.py:120-122 | a property of every item the reader produces holds of every list element |
| Primitives.RepeatFixed | file_parser.py:263-264 | k fixed-width items read exactly when k times the width fits, and consume exactly that |
| Primitives.RepeatAgree | leaf_parser.py:57-63 | two item readers that agree whenever one succeeds give lists that agree |
| Primitives.Prepend | file_parser.py:385-387 | items put in front of a list result keep its errors and its end position |
| Primitives.PrependLaws | file_parser.py:385-387 | putting nothing in front changes nothing; two prepends compose |
| Primitives.ReadInt | file_parser.py:9-10 | the cursor reader produces IntAt's value and end position, or its error |
| Primitives.ReadShort | file_parser.py:12-13 | the cursor reader fails with ShortAt's error on every input |
| Primitives.ReadFloat | file_parser.py:15-16 | follows FloatAt |
| Primitives.ReadBool | file_parser.py:18-19 | follows BoolAt |
| Primitives.ReadString | file_parser.py:21-23 | follows StringAt |
| Primitives.ReadHash | file_parser.py:25-28 | follows HashAt |
| Primitives.ReadVector | file_parser.py:30-34 | follows VectorAt |
| Primitives.ReadColor | file_parser.py:36-41 | follows ColorAt |
| Primitives.ReadTransform | file_parser.py:43-55 | follows TransformAt |
| Primitives.ReadFilePath | file_parser.py:57-60 | follows FilePathAt |
| Primitives.ReadStrings | file_parser.py:102-103 | the loop reads exactly RangeCount(count) strings, the list Repeat(StringAt) describes, or its error |
| Components.ComponentTable | file_parser.py:105-111 | component_readers registers exactly the five codes, each for its own kind (both directions) |
| Components.AnimationComponentAt | file_parser.py:62-67 | succeeds exactly when the int, the float and the string read; consumes them and yields {} |
| Components.EditStateComponentAt | file_parser.py:69-71 | consumes no bytes and yields {} |
| Components.ApproachComponentAt | file_parser.py:73-81 | succeeds exactly when the animation fields and two more ints read; yields {'approach_beats': the second int} |
| Components.TransformComponentAt | file_parser.py:83-93 | succeeds exactly when int, two strings and 60 transform bytes are present and ends right after them; keys xfm_name, constrainnt, pos, rot_x, rot_y, rot_z, scale in this order, holding the parent name, the constraint name and then the entries of the transform read after it |
| Components.TransformComponentRecord | file_parser.py:89-93 | `{'xfm_name': parent, 'constrainnt': constraint, **transform}` has the seven keys in order, the two names first and then the transform entries unchanged |
| Components.DrawComponentAt | file_parser.py:95-103 | succeeds exactly when the head fields and the child names read; yields None (no return statement), ends where the last child name ends, at least 17 bytes on |
| Components.DrawHeadAt | file_parser.py:97-100 | the version int, the visibility flag and two strings read exactly when they fit and end where the second string ends; at least 13 bytes |
| Components.DrawChildrenAt | file_parser.py:101-103 | the child count then max(count, 0) names read exactly when they fit, ending where the last name ends |
| Components.ComponentAt | file_parser.py:112-115 | an unregistered code fails with KeyError before the body; a registered one runs its kind's body; the result is None exactly for a draw component, else a dict |
| Components.ComponentsAt | file_parser.py:117-123 | yields exactly max(count, 0) components, each a dict or None |
| Components.ReadAnimationComponent | file_parser.py:62-67 | follows AnimationComponentAt |
| Components.ReadEditStateComponent | file_parser.py:69-71 | follows EditStateComponentAt |
| Components.ReadApproachComponent | file_parser.py:73-81 | follows ApproachComponentAt |
| Components.ReadTransformComponent | file_parser.py:83-93 | follows TransformComponentAt |
| Components.ReadDrawComponent | file_parser.py:95-103 | follows DrawComponentAt |
| Components.ReadComponent | file_parser.py:112-115 | follows ComponentAt |
| Components.ReadComponents | file_parser.py:117-123 | the append loop follows ComponentsAt |
| Traits.SegmentAt | file_parser.py:130-132 | one path segment consumes 8 bytes; it is the bare member hash when the index is -1 and the (hash, index) pair otherwise |
| Traits.TraitPathAt | file_parser.py:125-133 | read_trait_path succeeds exactly when the count and its 8-byte segments fit, consumes exactly those and yields exactly max(count, 0) segments |
| Traits.DataValueAt | file_parser.py:135-156 | a data point value consumes 4 (int, float), 1 (bool) or 16 (color) bytes and has the reader's type |
| Traits.DataPointAt | file_parser.py:157-166 | a trait type outside the 20 table entries or without a reader fails before any byte is read; on success the pair is (time float, value of the reader's type) |
| Traits.DataPointPairsAt | file_parser.py:168-172 | the pairs read number exactly max(count, 0) |
| Traits.DataPointsAt | file_parser.py:168-174 | the dict of data points is readable exactly when its pairs are |
| Traits.DataPointsLastWins | file_parser.py:168-174 | each time maps to the value read last for it; keys are distinct and are the times read, so there are at most count entries |
| Traits.DataPointsSameTime | file_parser.py:168-174 | points that all share one time leave a single entry with the last value |
| Traits.DataPointsTypeCheck | file_parser.py:157-161 | a trait type without a reader fails as soon as there is one point; with a count of zero or less the dict is {} after the 4-byte count |
| Traits.FooterHeadAt | file_parser.py:205-233 | the first seven footer entries are line animation, easing (read third), interpolation (read second), the two unused ints and the two intensity operation strings, each the value read at its offset |
| Traits.FooterTailAt | file_parser.py:212-240 | the last ten footer entries consume 28 bytes: int(bool) of the two leading flag bytes, the step frequency int, the unused float, the four floats of the unused color spread in, and int(bool) of the two trailing flag bytes |
| Traits.FooterAt | file_parser.py:205-241 | the footer has 17 entries, exactly the head's seven followed by the tail's ten, easing in second and interpolation in third place |
| Traits.SequencerBody | file_parser.py:220-242 | the closing dict fails with IndexError on an empty trait path, then on a trait type outside the name table; otherwise keys param_path, trait_type, data_points, step, footer hold path[0], the type's name, the points dict, the text False and the footer |
| Traits.SequencerHeaderAt | file_parser.py:200-202 | the name, trait path and trait type are read in order, each from where the previous ended |
| Traits.SequencerTrackAt | file_parser.py:203-219 | data points, then UI elements with the same trait type, then the footer: the kept points are the first dict, the footer has 17 entries and is the one read after the UI elements, and the track ends where it ends |
| Traits.SequencerObjectAt | file_parser.py:198-242 | on success the path is non-empty and the type in range; keys obj_name, param_path, trait_type, data_points, step, footer hold the name, path[0], the type name, the first points dict read after the header, False and the footer read; the object ends one byte (the trailing bool) after the footer |
| Traits.SequencerRecord | file_parser.py:220-222 | obj_name in front of the body keys, followed by the body entries unchanged |
| Traits.SequencerObjectEmptyPath | file_parser.py:222 | an object whose every field reads but whose trait path is empty fails with EmptyTraitPath |
| Traits.SequencerObjectsAt | file_parser.py:244-251 | yields exactly max(count, 0) dicts |
| Traits.ReadSegment | file_parser.py:130-132 | follows SegmentAt |
| Traits.ReadTraitPath | file_parser.py:125-133 | the append loop follows TraitPathAt |
| Traits.ReadDataValue | file_parser.py:135-156 | follows DataValueAt |
| Traits.ReadDataPoint | file_parser.py:157-166 | follows DataPointAt |
| Traits.ReadDataPoints | file_parser.py:168-174 | the loop that updates the dict in place follows DataPointsAt, so its dict is last-write-wins over the pairs read |
| Traits.ReadFooterHead | file_parser.py:205-211 | follows FooterHeadAt |
| Traits.ReadFooterTail | file_parser.py:212-219 | follows FooterTailAt |
| Traits.ReadFooter | file_parser.py:205-219 | follows FooterAt |
| Traits.ReadSequencerHeader | file_parser.py:200-202 | follows SequencerHeaderAt |
| Traits.ReadSequencerTrack | file_parser.py:203-219 | follows SequencerTrackAt |
| Traits.ReadSequencerObject | file_parser.py:198-242 | follows SequencerObjectAt |
| Traits.ReadSequencerObjects | file_parser.py:244-251 | the append loop follows SequencerObjectsAt |
| Objects.Items | file_parser.py:488-502 | {'items': [item]} has the single key items holding the one-item list |
| Objects.ObjectHeadAt | file_parser.py:255-258 | the version ints (three or two) are skipped and the object's components are read right after them |
| Objects.LeafBeatsAt | file_parser.py:260-265 | succeeds exactly when the count, two floats, max(count, 0) 12-byte vectors and the lane offset fit; yields the count and ends 16 + 12 per beat after it |
| Objects.LeafAt | file_parser.py:253-271 | read_leaf reads head, sequencer objects and beats in order; the dict has keys obj_type, obj_name, seq_objs, beat_cnt holding 'SequinLeaf', the name, the objects read and the beat count read |
| Objects.GroupingFlagsAt | file_parser.py:306-310 | consumes 8 bytes and keeps only the play-plus flag, the last byte's truth |
| Objects.GroupingNamesAt | file_parser.py:301-305 | level name, gate name, checkpoint bool, leader name and rest name, each read where the previous ended; the bool is the truth of its byte and the names end where the rest name ends |
| Objects.GroupingRecord | file_parser.py:311-318 | the grouping dict has keys lvl_name, gate_name, checkpoint, checkpoint_leader_lvl_name, rest_lvl_name, play_plus in this order, holding the five names and flags given and the play-plus flag |
| Objects.GroupingAt | file_parser.py:300-318 | read_lvl_grouping yields that dict: the first five values are those GroupingNamesAt reads; play_plus is the truth of the last of the 8 flag bytes after them, where the grouping ends |
| Objects.GroupingsAt | file_parser.py:320-326 | yields exactly max(count, 0) groupings |
| Objects.MasterSceneAt | file_parser.py:334-336 | the float and the skybox name are skipped; the intro level name is the second string |
| Objects.MasterUnusedAt | file_parser.py:338-344 | the unused fields take exactly 30 bytes |
| Objects.MasterCheckpointAt | file_parser.py:338-346 | after the unused 30 bytes, the checkpoint name is kept and one more string is read |
| Objects.MasterRecord | file_parser.py:347-354 | the master dict has keys obj_type, obj_name, skybox_name, intro_lvl_name, groupings, checkpoint_lvl_name, with 'SequinMaster' and 'skybox_cube' fixed and the name, intro name, groupings and checkpoint name given |
| Objects.MasterAt | file_parser.py:328-354 | read_master yields that dict: the skybox name reported is 'skybox_cube' whatever the file holds; intro_lvl_name, groupings and checkpoint_lvl_name are what the scene, groupings and checkpoint readers read, in that order after the sequencer objects, and the object ends where the checkpoint reader ends |
| Objects.BossPatternAt | file_parser.py:440-447 | reads exactly when the script-node hash, the level name, the flag, the sentry type string and 8 more bytes (a float and the bucket int) fit; yields {} and ends 8 bytes after the sentry type string, at least 17 bytes on |
| Objects.BossPatternsAt | file_parser.py:449-455 | yields exactly max(count, 0) boss patterns |
| Objects.GateTargetAt | file_parser.py:462-463 | reads exactly when the spawner name and the trait path read one after the other, and ends where the path ends |
| Objects.GateLevelsAt | file_parser.py:465-471 | three level names, an unused string and the component type string in order, then the unused float and the level random type string, where it ends; at least 24 bytes |
| Objects.GateAt | file_parser.py:457-472 | read_gate reads head, target, boss patterns and level names in order, yields {} and ends where the level names end |
| Objects.SampleMixAt | file_parser.py:481-486 | consumes 21 bytes; keeps volume, pitch, pan and offset, the floats at offsets 5, 9, 13, 17 |
| Objects.SampAt | file_parser.py:474-502 | read_samp yields {'items': [sample]}: the sample has the nine keys, holding 'Sample', the name, the mode string, the file path, the four mix floats and the channel group name read 21 bytes after the path; the object ends where that name ends |
| Objects.SampleRecord | file_parser.py:490-500 | the sample dict has keys obj_type, obj_name, mode, path, volume, pitch, pan, offset, channel_group holding 'Sample', the name, the play mode, the file path, the four mix values and the channel group in place |
| Objects.ComponentPair | file_parser.py:412 | `[a, b] = components` (here and in read_spn) succeeds exactly for two components and otherwise fails with the count |
| Objects.SpawnerItem | file_parser.py:513-519 | the spawner dict can be built exactly when the transform component is a dict; it holds objlib_path and bucket as read |
| Objects.SpnAt | file_parser.py:504-521 | read_spn fails unless there are exactly two components; on success the second is a dict, the item is the spawner dict built from it, the file path read after the components and the bucket read after that, and the object ends where the bucket name ends |
| Objects.TexAt | file_parser.py:523-531 | read_tex reads the compression string, the mip flag and the file path in order and yields {} |
| Objects.MaterialMapsAt | file_parser.py:538-541 | four strings, each read where the previous ended, ending where the fourth ends; at least 16 bytes |
| Objects.MaterialModesAt | file_parser.py:542-547 | the lighting int, cull and z mode strings, two flags and the filtering string, ending where that string ends; at least 18 bytes |
| Objects.MaterialColorsAt | file_parser.py:548-554 | five colors and two floats, exactly 88 bytes |
| Objects.MaterialTextureAt | file_parser.py:555-561 | specular map, transform mode, the 60-byte transform and float, the flag, the vignette name and a final flag, ending one byte after the name; at least 78 bytes |
| Objects.MaterialAt | file_parser.py:538-561 | maps, modes, colors and texture fields in order, ending where the texture fields end; at least 200 bytes |
| Objects.MatAt | file_parser.py:533-562 | read_mat reads the material fields right after its components, yields {} and ends where MaterialAt ends, at least 200 bytes after the components |
| Objects.VertexAt | file_parser.py:574-576 | a vertex is exactly 36 bytes |
| Objects.FaceAt | file_parser.py:579-581 | a face never reads, because read_short never succeeds |
| Objects.VerticesAt | file_parser.py:572-576 | the vertex list reads exactly when max(count, 0) vertices fit and ends 36 bytes per vertex after the count |
| Objects.FacesFail | file_parser.py:577-581 | any non-empty face list fails |
| Objects.FacesAt | file_parser.py:577-581 | the face list reads exactly when its count is zero or less, and then takes only the count |
| Objects.MeshDataAt | file_parser.py:572-583 | inline mesh data reads only when its face count is zero or less; it ends two flag bytes after the face count |
| Objects.MeshFileAt | file_parser.py:585-590 | a mesh file reference reads exactly when the file path and 17 more bytes fit |
| Objects.MeshAt | file_parser.py:564-591 | read_mesh takes the inline-data branch exactly when the second string is non-empty, else the file branch; yields {} and ends where that branch ends |
| Objects.PathTilesAt | file_parser.py:597-599 | two vectors and a float, exactly 28 bytes |
| Objects.PathLookAt | file_parser.py:600-605 | the mesh name, bend flag, bend interpolation string, two pulse flags and v scale, ending 6 bytes after the string; at least 15 bytes |
| Objects.PathDecoratorsAt | file_parser.py:606-609 | the count, max(count, 0) decorator names and the visibility flag read exactly when they fit, ending one byte after the last name |
| Objects.PathAt | file_parser.py:593-610 | read_path reads tiles, look and decorators in order after its components, yields {} and ends where the decorators end, at least 48 bytes after the components |
| Objects.ReadObjectHead | file_parser.py:255-258 | follows ObjectHeadAt |
| Objects.ReadLeafBeats | file_parser.py:260-265 | follows LeafBeatsAt |
| Objects.ReadBeatVectors | file_parser.py:263-264 | the loop reads max(count, 0) vectors, the list Repeat(VectorAt) describes, or its error |
| Objects.ReadLeaf | file_parser.py:253-271 | follows LeafAt |
| Objects.ReadGroupingFlags | file_parser.py:306-310 | follows GroupingFlagsAt |
| Objects.ReadGroupingNames | file_parser.py:301-305 | follows GroupingNamesAt |
| Objects.ReadGrouping | file_parser.py:300-318 | follows GroupingAt |
| Objects.ReadGroupings | file_parser.py:320-326 | the append loop follows GroupingsAt |
| Objects.ReadMasterScene | file_parser.py:334-336 | follows MasterSceneAt |
| Objects.ReadMasterUnused | file_parser.py:338-344 | follows MasterUnusedAt |
| Objects.ReadMasterCheckpoint | file_parser.py:338-346 | follows MasterCheckpointAt |
| Objects.ReadMaster | file_parser.py:328-354 | follows MasterAt |
| Objects.ReadBossPattern | file_parser.py:440-447 | follows BossPatternAt |
| Objects.ReadBossPatterns | file_parser.py:449-455 | the append loop follows BossPatternsAt |
| Objects.ReadGateTarget | file_parser.py:462-463 | follows GateTargetAt |
| Objects.ReadGateLevels | file_parser.py:465-471 | follows GateLevelsAt |
| Objects.ReadGate | file_parser.py:457-472 | follows GateAt |
| Objects.ReadSampleMix | file_parser.py:481-486 | follows SampleMixAt |
| Objects.ReadSamp | file_parser.py:474-502 | follows SampAt |
| Objects.ReadSpn | file_parser.py:504-521 | follows SpnAt |
| Objects.ReadTex | file_parser.py:523-531 | follows TexAt |
| Objects.ReadMaterialMaps | file_parser.py:538-541 | follows MaterialMapsAt |
| Objects.ReadMaterialModes | file_parser.py:542-547 | follows MaterialModesAt |
| Objects.ReadMaterialColors | file_parser.py:548-554 | follows MaterialColorsAt |
| Objects.ReadMaterialTexture | file_parser.py:555-561 | follows MaterialTextureAt |
| Objects.ReadMaterial | file_parser.py:538-561 | follows MaterialAt |
| Objects.ReadMat | file_parser.py:533-562 | follows MatAt |
| Objects.ReadVertex | file_parser.py:574-576 | follows VertexAt |
| Objects.ReadFace | file_parser.py:579-581 | follows FaceAt |
| Objects.ReadVertices | file_parser.py:572-576 | the vertex loop follows VerticesAt |
| Objects.ReadFaces | file_parser.py:577-581 | the face loop follows FacesAt |
| Objects.ReadMeshData | file_parser.py:572-583 | follows MeshDataAt |
| Objects.ReadMeshFile | file_parser.py:585-590 | follows MeshFileAt |
| Objects.ReadMesh | file_parser.py:564-591 | follows MeshAt |
| Objects.ReadPathTiles | file_parser.py:597-599 | follows PathTilesAt |
| Objects.ReadPathLook | file_parser.py:600-605 | follows PathLookAt |
| Objects.ReadPathDecorators | file_parser.py:606-609 | the decorator-name loop follows PathDecoratorsAt |
| Objects.ReadPath | file_parser.py:593-610 | follows PathAt, including the decorator-name loop |
| Lvl.SubPathAt | file_parser.py:367-369 | a sub path reads exactly when its two strings do, is the two-element list of them and ends where the second ends |
| Lvl.SubPathsAt | file_parser.py:364-369 | yields exactly max(count, 0) sub paths, the list of sub paths read one after the other after the count |
| Lvl.OptionalStringAt | file_parser.py:360-362 | the sequin name is read exactly when the skip flag is false; otherwise nothing is read and nothing is bound |
| Lvl.StepHeadAt | file_parser.py:359-369 | the beat count is the first int; the sequin name is read exactly when the skip flag is false, then the main path and the sub paths, each where the previous ended, and the head ends after the sub paths |
| Lvl.StepTailAt | file_parser.py:370-374 | reads exactly when step type, offset, transform and two flags fit; keeps the transform's five entries, the ones read 4 bytes after the type string, and ends 66 bytes after that string |
| Lvl.StepRecord | file_parser.py:375-381 | the step dict has keys beat_cnt, leaf_name, main_path, sub_paths, then the transform keys, holding the beat count, the sequin name, the main path, the sub paths and then the transform entries unchanged |
| Lvl.StepKeysFresh | file_parser.py:375-381 | no key of a step's own is a transform key, so `**transform` appends |
| Lvl.StepAt | file_parser.py:356-381 | read_step stays in the buffer and yields a step dict when it succeeds |
| Lvl.StepNamedUnbound | file_parser.py:357-376 | a non-empty leading string raises UnboundLocalError once type, offset, transform and flags have been read, or fails earlier with their error |
| Lvl.StepFields | file_parser.py:357-381 | a step that reads had an empty leading string and an unskipped sequin; its dict holds the head's beat count, sequin name, main path and sub paths, then the tail's transform entries, and it ends where the tail ends |
| Lvl.StepsAt | file_parser.py:383-388 | read_steps ends just after a false flag, and every element is a step dict |
| Lvl.StepsStep | file_parser.py:385-387 | a missing flag is Truncated, a false flag ends the list after one byte, a failing step fails it, a good step leads the rest |
| Lvl.LoopAt | file_parser.py:390-397 | read_loop reads exactly when the string and 8 more bytes fit; yields keys samp_name, beats_per_loop holding the name and the first int |
| Lvl.LoopsAt | file_parser.py:399-405 | yields exactly max(count, 0) loops |
| Lvl.LvlMoveAt | file_parser.py:414-416 | the end frame and two strings, ending where the second string ends; at least 12 bytes |
| Lvl.LvlFlowAt | file_parser.py:419-423 | the volume kept is the float after the unused flag; then the flow name, its trait path and the trait type string, where it ends |
| Lvl.LvlTailAt | file_parser.py:424-426 | keeps the input flag, the tutorial type and the start angle vector read right after it, and ends 12 bytes after the string |
| Lvl.LvlBodyAt | file_parser.py:414-426 | the steps kept are those read after the move fields; then loops, flow and tail in order; the body holds exactly those and ends where the tail ends |
| Lvl.LvlRecord | file_parser.py:427-438 | the level dict can be built exactly when the approach component is a dict, else TypeError; seq_objs, leaf_seq, loops, volume, input_allowed, tutorial_type and start_angle_fracs hold what was read; obj_type and obj_name are 'SequinLevel' and the name unless the component overrides them, and approach_beats is the component's |
| Lvl.LvlTrailingKeys | file_parser.py:431-437 | after the spread, the seven trailing keys hold the objects, steps, loops, volume, input flag, tutorial type and vector |
| Lvl.LvlHeadKey | file_parser.py:428-430 | obj_type, obj_name and approach_beats hold the component's last value for that key when it has one, else the value written before the spread |
| Lvl.LvlAt | file_parser.py:407-438 | read_lvl fails with the component count unless there are exactly two components; on success the first is a dict and the result is the level record of it, the sequencer objects read and the body read after them, ending where the body ends |
| Lvl.ReadSubPath | file_parser.py:367-369 | follows SubPathAt |
| Lvl.ReadSubPaths | file_parser.py:364-369 | the append loop follows SubPathsAt |
| Lvl.ReadStepHead | file_parser.py:359-369 | follows StepHeadAt |
| Lvl.ReadStepTail | file_parser.py:370-374 | follows StepTailAt |
| Lvl.ReadStep | file_parser.py:356-381 | follows StepAt |
| Lvl.ReadSteps | file_parser.py:383-388 | the `while read_bool` loop follows StepsAt |
| Lvl.ReadLoop | file_parser.py:390-397 | follows LoopAt |
| Lvl.ReadLoops | file_parser.py:399-405 | the append loop follows LoopsAt |
| Lvl.ReadLvlMove | file_parser.py:414-416 | follows LvlMoveAt |
| Lvl.ReadLvlFlow | file_parser.py:419-423 | follows LvlFlowAt |
| Lvl.ReadLvlTail | file_parser.py:424-426 | follows LvlTailAt |
| Lvl.ReadLvlBody | file_parser.py:414-426 | follows LvlBodyAt |
| Lvl.ReadLvl | file_parser.py:407-438 | follows LvlAt |
| Objlib.LevelObjectTable | file_parser.py:612-628 | level_object_readers selects exactly the ten defined readers, each by its own code (both directions) |
| Objlib.KindHasItsCode | file_parser.py:612-628 | a code that selects a reader is that reader's registered code |
| Objlib.CodeSelectsKind | file_parser.py:612-628 | each defined reader's code selects it |
| Objlib.UndefinedReader | file_parser.py:615-626 | the codes of read_drawer, read_xfm, read_anim, read_flow and read_env select no reader |
| Objlib.ReadersAdvance | file_parser.py:612-628 | every registered reader stays in the buffer and never moves backwards |
| Objlib.GlobalLibraryAt | file_parser.py:273-276 | reads exactly when the int and the name fit; yields {} right after the name |
| Objlib.GlobalLibrariesAt | file_parser.py:278-284 | yields exactly max(count, 0) libraries |
| Objlib.ExternalObjectAt | file_parser.py:286-290 | reads exactly when the code, the name and the int fit; yields {} right after them |
| Objlib.ExternalObjectsAt | file_parser.py:292-298 | yields exactly max(count, 0) external objects |
| Objlib.DeclarationAt | file_parser.py:629-633 | a declaration is a name then a type code; an unregistered code fails with KeyError right after it is read, a registered one selects its kind |
| Objlib.DeclarationsAt | file_parser.py:635-641 | yields exactly max(count, 0) declarations |
| Objlib.ObjectsFrom | file_parser.py:652-653 | one object per declaration, each read by its kind's reader from where the previous ended |
| Objlib.ObjectsFromAppend | file_parser.py:652-653 | reading the objects of two runs of declarations is reading the first run, then the second from where it ended |
| Objlib.FirstDeclaration | file_parser.py:652-653 | an object that reads leads its run, stays in the buffer, and the rest of the run is read from where it ends |
| Objlib.SingleDeclaration | file_parser.py:652-653 | a one-declaration run is that object's read in a one-element list, failing with its error |
| Objlib.TwoDeclarations | file_parser.py:652-653 | in a two-declaration run the second object is read from exactly where the first ends, and the run ends where the second ends |
| Objlib.SampReader | file_parser.py:616 | the sample kind's registered reader is read_samp |
| Objlib.SpnReader | file_parser.py:618 | the spawner kind's registered reader is read_spn |
| Objlib.SampThenSpn | file_parser.py:652-653 | a sample declared before a spawner: the spawner is read from the byte just after the sample's channel group name, and the run holds both objects and ends where the spawner's bucket name ends |
| Objlib.UnknownsAt | file_parser.py:644-647 | the four unused ints are exactly 16 bytes |
| Objlib.ObjlibHeaderAt | file_parser.py:644-650 | the header (ints, libraries, original path, external objects) takes at least 16 bytes |
| Objlib.LevelObjlibAt | file_parser.py:643-653 | a failing declaration table fails the objlib with its error before any object is read; on success the objects are those of the declarations read, read in order after the table |
| Objlib.UnknownDeclarationFailsList | file_parser.py:635-641 | a declaration with an unregistered code fails the table with that code after the declarations before it |
| Objlib.UnknownDeclarationFails | file_parser.py:643-653 | such a declaration fails the whole objlib with that code, before any object is read |
| Objlib.ObjlibFileAt | file_parser.py:655-661 | an objlib kind other than 0b374d9e fails with KeyError; otherwise the level objlib follows the code |
| Objlib.FileAt | file_parser.py:663-669 | a file kind other than 8 fails; otherwise the objlib file follows the kind |
| Objlib.LeafCode | file_parser.py:612-613 | by read_hash the bytes f6 85 7e ce read as the code 'ce7e85f6', which selects read_leaf |
| Objlib.ReadGlobalLibrary | file_parser.py:273-276 | follows GlobalLibraryAt |
| Objlib.ReadGlobalLibraries | file_parser.py:278-284 | the append loop follows GlobalLibrariesAt |
| Objlib.ReadExternalObject | file_parser.py:286-290 | follows ExternalObjectAt |
| Objlib.ReadExternalObjects | file_parser.py:292-298 | the append loop follows ExternalObjectsAt |
| Objlib.ReadDeclaration | file_parser.py:629-633 | follows DeclarationAt |
| Objlib.ReadDeclarations | file_parser.py:635-641 | the append loop follows DeclarationsAt |
| Objlib.ReadLevelObject | file_parser.py:653 | calling the declared reader follows that kind's specification |
| Objlib.ReadObjects | file_parser.py:652-653 | the loop over the declarations follows ObjectsFrom |
| Objlib.ReadObjlibHeader | file_parser.py:644-650 | follows ObjlibHeaderAt |
| Objlib.ReadLevelObjlib | file_parser.py:643-653 | follows LevelObjlibAt |
| Objlib.ReadObjlibFile | file_parser.py:658-661 | follows ObjlibFileAt |
| Objlib.ReadFile | file_parser.py:666-669 | reading a file from its start gives FileAt's result or error |
| FakeJson.Tabs | leaf_parser.py:219-220 | `n * '\t'` has exactly n characters, all tabs |
| FakeJson.Format | leaf_parser.py:218-232 | format_fake_json succeeds or fails with TypeError naming NoneType or tuple |
| FakeJson.FormatEntries | leaf_parser.py:222 | a dict body fails only with that TypeError |
| FakeJson.EntryText | leaf_parser.py:222 | a dict line fails only with that TypeError |
| FakeJson.FormatItems | leaf_parser.py:224 | a list body fails only with that TypeError |
| FakeJson.FormatOkIffEmittable | leaf_parser.py:218-232 | the emitter succeeds exactly on values with no None and no tuple anywhere inside them |
| FakeJson.EntriesOkIffEmittable | leaf_parser.py:222 | a dict body succeeds exactly when every key and value from the i-th entry on is emittable |
| FakeJson.ItemsOkIffEmittable | leaf_parser.py:224 | a list body succeeds exactly when every item from the i-th on is emittable |
| FakeJson.EmptyDict | leaf_parser.py:222 | an empty dict at indent 0 gives "{\n}" |
| FakeJson.EntriesAppend | leaf_parser.py:222 | the body of a dict a + b is the body of a followed by the body of b: one line per entry |
| FakeJson.AppendStep | leaf_parser.py:222 | an entry of a prints the same line in a and in a + b |
| FakeJson.ShiftedEntries | leaf_parser.py:222 | the entries of a + b after a print as those of b |
| FakeJson.SingleEntry | leaf_parser.py:222 | a one-entry dict is '{', newline, indent+1 tabs, key, ': ', value, ',', newline, indent tabs, '}' |
| FakeJson.ItemsAppend | leaf_parser.py:224 | the body of a list a + b is the body of a followed by the body of b: one line per item |
| FakeJson.ItemAppendStep | leaf_parser.py:224 | an item of a prints the same line in a and in a + b |
| FakeJson.ShiftedItems | leaf_parser.py:224 | the items of a + b after a print as those of b |
| FakeJson.SingleItem | leaf_parser.py:224 | a one-item list is '[', newline, indent+1 tabs, the item, ',', newline, indent tabs, ']' |
| FakeJson.ScalarIgnoresIndent | leaf_parser.py:225-230 | ints, bools, floats and strings print the same at every depth |
| FakeJson.Brackets | leaf_parser.py:221-224 | a dict text opens with '{' and closes with '}', a list with '[' and ']', the closer on a new line at the caller's depth |
| FakeJson.Refused | leaf_parser.py:231-232 | None and tuples fail with TypeError naming their type |
| FakeJson.Quoted | leaf_parser.py:229-230 | a string prints inside single quotes with its text unchanged, no escaping |
| FakeJson.Bools | leaf_parser.py:225-226 | True and False print as their names, not as 1 and 0 |
| LeafParser.SectionTable | leaf_parser.py:48-51 | section_readers registers exactly the markers 63259f0a and 3c8efb12, each for its own section kind |
| LeafParser.SectionAt | leaf_parser.py:37-55 | a section is a marker then an animation section (int, float, string) or nothing; an unregistered marker is a KeyError; every section yields {} |
| LeafParser.SectionIsComponent | leaf_parser.py:52-55 | a section that reads is the component with the same code, with the same result and end |
| LeafParser.SectionsAt | leaf_parser.py:57-63 | read_sections yields one section per iteration of range(count) |
| LeafParser.SectionsAreComponents | leaf_parser.py:57-63 | where read_sections succeeds, read_components succeeds on the same bytes with the same list and end |
| LeafParser.LeafDataPointAt | leaf_parser.py:97-104 | a trait type outside the table fails before any read; one without a reader fails after the time, short read first; otherwise it is the objlib data point |
| LeafParser.DataPointsReadAlike | leaf_parser.py:97-104 | the Leaf and objlib readers of one data point succeed on the same bytes, with the same point and end |
| LeafParser.UnsupportedAfterTime | leaf_parser.py:99-100 | with fewer than four bytes left, the Leaf reader reports a short read where the objlib reader reports the missing reader |
| LeafParser.LeafDataPointPairsAt | leaf_parser.py:106-111 | one (time, value) pair per iteration of range(count) |
| LeafParser.LeafDataPointsAt | leaf_parser.py:106-112 | the dict of data points reads exactly when its pairs do |
| LeafParser.LeafDataPointsAgree | leaf_parser.py:106-112 | the Leaf and objlib read_data_points succeed on the same bytes, with the same dict and end |
| LeafParser.LeafSequencerHeadAt | leaf_parser.py:138-139 | a sequencer body opens with the trait path and an int32 trait type, and reads exactly when both fit |
| LeafParser.LeafSequencerTrackAt | leaf_parser.py:140-155 | data points, UI elements and the footer, whose list has 17 entries |
| LeafParser.TracksAgree | leaf_parser.py:140-155 | the Leaf track and the objlib track succeed on the same bytes with the same result |
| LeafParser.LeafSequencerAt | leaf_parser.py:136-177 | the body dict has param_path, trait_type, data_points, step and footer in that order; an empty trait path fails at trait_path[0] |
| LeafParser.SequencerSpread | leaf_parser.py:183-186 | `{'obj_name': name, **body}` puts obj_name first and then the body's entries unchanged |
| LeafParser.LeafSequencerSectionAt | leaf_parser.py:179-187 | the wrapper reads a name, a body and a bool, and yields obj_name followed by the body |
| LeafParser.SequencerObjectsAlike | leaf_parser.py:179-187 | the Leaf wrapper and the objlib sequencer object reader succeed on the same bytes with the same dict and end |
| LeafParser.TraitAnimationAt | leaf_parser.py:189-196 | one wrapped sequencer object per iteration of range(count) |
| LeafParser.TraitAnimationAlike | leaf_parser.py:189-196 | read_trait_animation and the objlib read_sequencer_objects succeed on the same bytes with the same list and end |
| LeafParser.LeafHeadAt | leaf_parser.py:200-203 | three int32 version numbers, then the sections |
| LeafParser.LeafFileAt | leaf_parser.py:198-216 | read_leaf yields obj_type SequinLeaf, the given name, the trait animation and the beat count read; the object ends after 16 bytes plus 12 per beat past the animation |
| LeafParser.LeafReadersAgree | leaf_parser.py:198-216 | where the Leaf-only reader succeeds, the objlib Leaf reader gives the same dict and end |
| LeafParser.ReadSection | leaf_parser.py:52-55 | follows SectionAt |
| LeafParser.ReadSections | leaf_parser.py:57-63 | the append loop follows SectionsAt |
| LeafParser.ReadLeafDataPoint | leaf_parser.py:97-104 | follows LeafDataPointAt |
| LeafParser.ReadLeafDataPoints | leaf_parser.py:106-112 | the dict-update loop follows LeafDataPointsAt |
| LeafParser.ReadLeafSequencerHead | leaf_parser.py:138-139 | follows LeafSequencerHeadAt |
| LeafParser.ReadLeafSequencerTrack | leaf_parser.py:140-155 | follows LeafSequencerTrackAt |
| LeafParser.ReadLeafSequencer | leaf_parser.py:136-177 | follows LeafSequencerAt |
| LeafParser.ReadLeafSequencerSection | leaf_parser.py:179-187 | follows LeafSequencerSectionAt |
| LeafParser.ReadTraitAnimation | leaf_parser.py:189-196 | the append loop follows TraitAnimationAt |
| LeafParser.ReadLeafHead | leaf_parser.py:200-203 | follows LeafHeadAt |
| LeafParser.ReadLeafFile | leaf_parser.py:198-216 | read_leaf from the file's start follows LeafFileAt |
| SampleExtractor.FnvAppend | thumper_sample_extractor.py:18-19 | the accumulator loop over a + b continues from its state after a |
| SampleExtractor.Value | thumper_sample_extractor.py:23 | the uint32 that hex() receives is below 2^32 and is 0 exactly when the bits are 0 |
| SampleExtractor.HexText | thumper_sample_extractor.py:23 | hex(h)[2:] is 1 to 8 lowercase hex digits, with no leading zero unless h is 0, and int(t, 16) gives h back |
| SampleExtractor.HexDigits | thumper_sample_extractor.py:23 | the base-16 digits of a value below 2^32 number at most 8, start with 0 only for 0, and read back as the value |
| SampleExtractor.Hash32 | thumper_sample_extractor.py:11-23 | the loop over 'A' + name, then the three finishing steps, all modulo 2^32, gives hash32(name) |
| SampleExtractor.HexTextInjective | thumper_sample_extractor.py:23 | two hashes print the same exactly when they are equal |
| SampleExtractor.EmptyNameHash | thumper_sample_extractor.py:11-23 | hash32('') is 0x023daada and prints as the 7 characters 23daada, with no zero padding |
| SampleExtractor.Find | thumper_sample_extractor.py:53 | bytearray.find(q, i) gives -1 or an index from i up to len(data) - len(q) |
| SampleExtractor.FindFound | thumper_sample_extractor.py:53 | find returns -1 or an index where the query occurs |
| SampleExtractor.FindFirst | thumper_sample_extractor.py:53 | find returns the first occurrence at or after i, and -1 only when there is none |
| SampleExtractor.Yielded | thumper_sample_extractor.py:56-62 | the yielded paths are the spans that decode as UTF-8, in order, so there are no more of them than spans |
| SampleExtractor.YieldedAppend | thumper_sample_extractor.py:56-62 | visiting one more span appends that span's path, if it decodes, to the paths already yielded |
| SampleExtractor.ScanLoopStop | thumper_sample_extractor.py:54-55 | the loop ends when no start match is left, and raises ValueError when a start match has no end match after it |
| SampleExtractor.ScanLoopAdvance | thumper_sample_extractor.py:54-64 | otherwise one round records the span up to the end match and goes on from the next start match after it |
| SampleExtractor.ScanLoopIsScanFrom | thumper_sample_extractor.py:53-64 | the loop's round-by-round scan is the recursive scan with the spans already visited in front |
| SampleExtractor.DecodeTarget | thumper_sample_extractor.py:56-62 | the try block yields the decoded span, or nothing on UnicodeDecodeError |
| SampleExtractor.ScanReferences | thumper_sample_extractor.py:53-64 | the while loop visits exactly the spans of the scan, stops with ValueError exactly when the scan does, and yields the spans that decode |
| SampleExtractor.FindFileReferences | thumper_sample_extractor.py:41-64 | find_file_references run to completion on the UTF-8 encoded queries: the paths, the spans and whether it raised |
| SampleExtractor.FirstSpanMatches | thumper_sample_extractor.py:55 | the first span starts at a start match and ends just after the first end match at or after its start |
| SampleExtractor.SpansMatch | thumper_sample_extractor.py:53-64 | every span starts at a start match and ends just after the first end match at or after its start |
| SampleExtractor.AllSpansMatchCons | thumper_sample_extractor.py:54-64 | a matching span in front of matching spans keeps them all matching |
| SampleExtractor.SpansOrdered | thumper_sample_extractor.py:53-64 | the spans are non-empty, ascending and disjoint; each next one starts at the first start match after the previous end, whether or not that span decoded |
| SampleExtractor.ChainedCons | thumper_sample_extractor.py:64 | a span in front of spans that start from the next start match after its end keeps them chained |
| SampleExtractor.MissingEndExactly | thumper_sample_extractor.py:54-55 | the loop raises ValueError exactly when the last start match it reaches has no end match at or after it |
| SampleExtractor.SpanBytesAsWritten | thumper_sample_extractor.py:55-56 | every span as written starts at a start match and its bytes end with the end query |
| SampleExtractor.EndInsideStart | thumper_sample_extractor.py:55 | as written, start query abc, end query b and data abc give the one span ab, two bytes, which is shorter than the start query |
| SampleExtractor.IntendedSpanBytes | thumper_sample_extractor.py:55 | searching for the end only after the whole start match, every span's bytes begin with the start query and end with the end query |

## Left out

- **I/O and the command line.** The following are not modelled: opening and seeking files, `main`, `listdir` and `makedirs`, `print` (including the magic-header line `find_file_references` prints for every path), `list_file_headers`, `find_all_references_and_extract` and `attempt_extract_all`. The buffer is a parameter, `data: seq<byte>`, holding the bytes `file.read()` would return. A generator is modelled by the list of what it yields when run to completion.
- **Foreign codecs.** `extract_audio` (FSB5), `extract_texture` (PIL), `extract_mesh` and the `extract_file` dispatch call code outside the repository or only write files. `byte_extractor.py` is a plain offset copy. None of these is part of this model.
- **Float semantics.**
  - A float32 is kept as the 4-byte pattern `'<f'` reads (`PyValues.F32`), because decoding only needs its width.
  - `format_fake_json`'s `str(float)` and `is_integer` branch is the parameter `showFloat` of `FakeJson.Format`.
  - Data-point dict keys compare by bit pattern. Python's float equality differs in two ways: it merges +0.0 and -0.0 into one key, and it keeps two NaN keys apart even when their bit patterns are equal.
- **Short reads.**
  - A read past the end of the buffer fails with `Truncated`. Python's `file.read(n)` instead returns fewer bytes. For the fixed-width readers this makes `struct.unpack` raise, and it makes `read_hash` return a shorter hex string.
  - Primitives.StringAt: a size that runs past the end of the buffer fails with `Truncated`. `read_string` (file_parser.py:21-23) has no unpack, so Python decodes the shorter payload and goes on. An object whose last field is a string therefore reads in Python and fails here when it is the last thing in the file, for example Samp's channel group name (file_parser.py:487) or Master's string `unknown_8` (file_parser.py:346).
  - Primitives.ShortAt: with exactly 2 bytes left, Python's `file.read(4)` returns those 2 and the `'<h'` unpack succeeds. The model reports `Truncated`. A face's three shorts still can never all read, so `FacesFail` holds in Python too.
  - A negative string size is also `Truncated`. Python's `file.read(-n)` instead reads to the end of the file.
- **Negative indexing.** A trait type outside 0 to 19 fails with `TraitTypeOutOfRange` before any byte is read. Python would index `data_point_readers` and `trait_type_names` from the end for -20 to -1, and raise IndexError for anything else.
- Lvl.StepAt: its own contract states only that a step dict results. The fields and the end are stated by the lemma `StepFields`, because putting them on StepAt makes the step-list proofs too costly to check.
- **Undefined readers.** `level_object_readers` (file_parser.py:612-628) names `read_drawer`, `read_xfm`, `read_anim`, `read_flow` and `read_env`, which are never defined, so the module as written raises NameError on import. The model registers only the ten readers that exist, and treats the other five codes as unregistered (KeyError).
- **numpy overflow warnings.** `hash32`'s uint32 arithmetic is modelled as `bv32`, which wraps modulo 2^32 as the casts do. Warnings are not a result.
- SampleExtractor.FindFileReferences: requires a non-empty end query. With an empty end query, `barr.index(b'', i)` returns `i`, so each span is empty and the next start search lands on the same match: the source loops forever whenever a start match exists.
- **Lone surrogates.** A Dafny `char` is a Unicode scalar value. A Python `str` holding a lone surrogate, which `str.encode()` refuses, cannot be written down, so `Utf8.Encode` is total.
- SampleExtractor.Hash32 / SampleExtractor.Hash32Value: the hash is not proved injective or invertible. `HexTextInjective` proves only that its text determines its value.
- Objlib.FileAt: `read_file`, `read_objlib_file` and `read_level_objlib` return None in the source. The model returns two of the things `read_level_objlib` binds before returning: the declarations and the objects read. The header, libraries and external objects are read and checked but not returned. This makes the reading order observable.
- **Where a description of the format and the code disagree, the model follows the code.**
  - A type code is the hex of the four bytes in reverse order, so the file bytes f6 85 7e ce give `ce7e85f6`, which `level_object_readers` maps to `read_leaf`.
  - The sequencer footer (file_parser.py:226-241) is built with 17 entries, because the color spreads into four.

## Findings

| source | as written | input that shows it | evidently intended | confidence | as-written member | corrected member |
|---|---|---|---|---|---|---|
| thumper_sample_extractor.py:55 | the end query is searched from `path_index`, the first byte of the start match, so an end query inside the start query cuts the path short | data `abc`, start query `abc`, end query `b`: the one span is `ab`, which does not begin with the start query | search for the end query from `path_index + len(start_query_bytes)`, so every path begins with the start query and ends with the end query; this also changes spans whose end query overlaps the tail of the start match (start `cache/`, end `/`: the span runs to the next `/` after `cache/`, not to the one inside it), not only the case where the end query lies wholly inside the start query | not executed | SampleExtractor.EndInsideStart | SampleExtractor.IntendedSpanBytes |
