# VISSv2 reference implementation: a verified model

The repository implements the W3C Vehicle Information Service (VISSv2): a server core with transport managers, an access
grant server, feeders that connect the server to a vehicle, and tools that prepare their data. This project models the
parts of it that compute something intricate, and proves what they are for.

* **Payload codec** (`Codec`, `Compressor`, `CodecValues`, `CodecMessages`, `CodecRoundTrip`, `CodecLimits`,
  `CodecLosses`, `CodecOddParts`, `CodecTokens`, `CodecBytes`, `PathList`, `TimeStamp`). The tokenising compressor and
  the decoder, byte by byte: code words, two-byte path indices found by binary search, packed time stamps, integers of
  minimal width, re-inserted commas. The loops are methods of the class `Compressor`, proved against functions on the
  bytes. The main result is an exact condition: a message of the grammar, in any spacing, comes back if and only if the
  decoder's commas fall where the message has its own.
* **gRPC converters** (`Json`, `JsonTexts`, `Grpc`, `GrpcConverter`, `GrpcRoundTrip`, `GrpcRequests`, `GrpcRestored`,
  `GrpcExact`, `GrpcTexts`, `GrpcReads`). Protobuf messages printed as JSON by appending and trimming, and read back
  through a JSON map. The round trip is the identity up to a normal form under an exact condition, which also covers texts that the
  printers write without the escapes they need: what such a text is parsed to is shorter than it (`JsonTexts`).
* **Domain conversion** (`Files`, `ConversionTool`, `FeederArray`, `FeederBytes`, `ScalingFile`, `ScalingRoundTrip`,
  `Feeder`, `ConversionPipeline`, `ConversionUnits`, `ConversionValues`). The tool fills a table, interns conversions,
  inverts its unit table in place, links partner signals and writes two files; the feeder reads them and translates
  names and values. The end-to-end theorems cross both programs and both files.
* **Server core** (`TreePrinter`, `AccessLevel`, `Dispatcher`, `DispatcherFilters`, `DispatcherRuns`,
  `DispatcherForwards`, `TokenServer`, `DispatcherGuards`, `DispatcherTexts`, `DispatcherReplies`, `Routing`). The
  tree printer, the dispatcher with its one error response that survives from request to request, the inherited access
  level, and the router id that managers put into messages. What may pass without a token is stated of every text that a client may
  send, through the manager's insertion, the JSON decoder, the unpacking of filters and the dispatcher.
* **Access grant server** (`PopCache`, `Claims`). Replay protection of proof-of-possession tokens over every run of
  requests, clock ticks and late deletions; claims added to and read from tokens.
* **YAML writer** (`YamlWriter`, `YamlText`). The tree file that the conversion tool writes, with its list of written
  branches.

Go strings and byte slices are sequences of characters, one per byte; `int` values are unbounded where the code cannot
overflow and cut to their width where it can. A Go panic is the result `None`. Objects whose fields the code updates,
and package state, are classes; their methods are proved against functions, and the theorems are about these functions.
`Text` holds strings, decimal numbers and the byte-wise order.

## What the proofs show about the code

Some laws hold only under conditions that the code or its documentation does not mention. Each is stated as an
if-and-only-if, with the failing family named:

* `utils/README.md` says that the codec "does not apply any restriction to the syntax scope". But a message with a `data` or
  `dp` object is never restored (`DataNeverRestored`: a comma appears behind the key), and a flat one is lost when a member
  ends in one of the bytes 0x5B, 0x7B or, at the end, 0x7D (`FlatRoundTripIff`), as in `{"requestId":"125"}`. A message
  whose path is not listed, or with a value that is a code word or a text the codec does not keep, is never restored,
  wherever in a message the path or the value stands (`UnlistedPathLost`, `OddValueLost`); a code word as the only value
  makes the decoder panic (`ValueMessageIff`). A message that carries an access token is restored only if the token is
  its last member (`TokenMessageIff`).
* The server puts `"origin":"external"` in front of the client's members, and the decoder takes the last member of a name:
  a client that writes `"origin":"internal"` itself gets through without a token (`OriginIff`, `SetTextGuardedIff`,
  `InternalSetPasses`). A `server_capabilities` filter in front of the first paths or static-metadata filter forwards a
  get or subscribe request with its path unchecked (`OutsideTextIff`, `CapabilitiesPass`). For all other texts the guard
  holds (`SetTextGuardedIff`, `ReadTextGuardedIff`). The internal actions, which clients can also write, are forwarded
  without any check (`InternalActionIff`).
* For the same reason a client's own `RouterId` member decides where its answer goes (`AnswerRouter`). A text that is not
  decoded, as `{}` with the insertion, is answered under the router id that was refused last, which may be another
  client's (`UndecodedRouter`, `StaleRouter`).
* The question to the access token server puts the found paths between quotes. Several paths are an array with quotes of
  its own, so that the question is no JSON, and a request that finds several protected paths is refused with every token
  (`SeveralPathsRefused`).
* A request's own `handle` and `gatingId` members reach the service where the token server gives none (`Dispatched`).
* An error reply shows router id, action and subscription id of an earlier refused request where the current one has none
  (`ErrorReply`, `StaleSubscription`).
* The parameter of a metadata filter is printed without quotes: with an empty one or an ordinary word, such as `Vehicle`,
  the request cannot be read at all (`WordFails`, `RequestFails`). Range filters are printed with "logic-op" and read with
  "boundary-op", so that reading always fails (`RangesFail`). A request with more than two filters loses them silently,
  and static metadata whose text happens to be JSON loses its parameter (`RequestReads`). So exactly the requests without
  ranges and metadata, with at most two filters and no text that needs an escape, come back (`RequestRoundTripIff`).
* A mapping against the direction of a unit table entry inverts the entry in place: a mapping gets the coefficients of its
  own direction exactly when its entry was inverted an even number of times before, or is its own inverse
  (`OwnCoefficientsIff`; `SecondGetsOther` is a list that fails).
* Signals that the tool finds no conversion for are linked all the same, and the feeder panics on each of their values
  (`UnconvertiblePanics`).
* The scaling file is no JSON when it has only the boolean entry, since a comma stays behind it (`ScalingRoundTripIff`,
  `BooleansAlone`); bytes above 127 in it are encoded twice.
* None of the files of the conversion tool is truncated when it is opened, so that a shorter list leaves the end of a
  longer one (`FileRoundTripIff`, `NothingLeftIff`).
* A tree node all of whose children have unknown types is printed as a text that is no JSON (`TreeReadBack`).
* A token can be accepted twice when the server takes longer than three seconds between its cache and its clock
  (`ThreeSeconds`).

## Model

| member | source | states |
|---|---|---|
| `PathList.Search` | utils/computils.go:177-187 | the loop of the library's binary search computes the index that the other results speak of |
| `PathList.SearchFinds` | utils/computils.go:177-187 | in a sorted list the search lands on a path exactly when it is listed, and on its first occurrence |
| `PathList.CompressPath` | utils/computils.go:177-187 | the index of a path in slash or dot form, or -1 |
| `PathList.PathIndexRoundTrip` | utils/computils.go:177-195 | a listed path comes back in dot form from its index, any other as the empty string |
| `TimeStamp.PackedBytes` | utils/computils.go:447-464 | the fields in the four bytes, as arithmetic, for the shifts and masks of the code |
| `TimeStamp.UnpackOfPack` | utils/computils.go:230-256 | the packing of year, month, day, hour, minute and second loses nothing |
| `TimeStamp.RoundTripIff` | utils/computils.go:214-256 | a token comes back exactly when it is 202y-mm-ddThh:mm:ssZ with fields that fit their bits |
| `TimeStamp.PackedOrderIsTimeOrder` | utils/computils.go:447-464 | comparing packed bytes lexicographically is comparing in time |
| `Compressor.Compressor.InitCompression` | utils/computils.go:150-159 | the path list is loaded once |
| `Compressor.Compressor.GetCodeListIndex` | utils/computils.go:414-424 | the code of a keyword, or 255 |
| `Compressor.Compressor.ReadUncompressedMessage` | utils/computils.go:403-412 | the next token: a quoted string or one character |
| `Compressor.Compressor.CompressQuoted` | utils/computils.go:97-143 | what one quoted token becomes in each token state, and the state after it |
| `Compressor.Compressor.CompressMessage` | utils/computils.go:80-147 | the loop over the message computes the compressed bytes that the round trip is about |
| `Compressor.Compressor.DecompressValueBytes` | utils/computils.go:326-355 | the values behind a key, several in an array as long as one type code goes on |
| `Compressor.Compressor.ReadCompressedMessage` | utils/computils.go:357-401 | one compressed token: its text with colon and comma, and the bytes it takes |
| `Compressor.Compressor.DecompressMessage` | utils/computils.go:55-78 | the loop, with the first and the last brace put back |
| `CodecValues.WidthIsMinimal` | utils/computils.go:491-526 | one to four bytes, the smallest number that holds the absolute value |
| `CodecValues.BigEndianRoundTrip` | utils/computils.go:506-526 | the bytes of a number, most significant first, give it back |
| `CodecValues.IntDecompresses` | utils/computils.go:273-305 | every int64 decompresses to its sign and low 32 bits, and the decoder takes just the bytes produced |
| `CodecValues.IntRestoredIff` | utils/computils.go:491-526 | an integer text is restored exactly when it is canonical and below 2^32 in absolute value |
| `CodecValues.ValueRoundTripIff` | utils/computils.go:599-614 | a value is taken from its own bytes as it was, whatever bytes follow, exactly when it is a canonical integer below 2^32 in absolute value, a boolean, a float that prints as it was, or another text that is not empty |
| `CodecValues.EmptyStringSwallows` | utils/computils.go:313-322 | an empty string takes bytes of what follows it |
| `CodecValues.PathRoundTripIff` | utils/computils.go:426-439 | a listed path token becomes two bytes that give its dot form back exactly when its index is below 65536 |
| `CodecValues.UnlistedPathKept` | utils/computils.go:426-439 | an unlisted path stays as it is |
| `CodecBytes.WordBytes` | utils/computils.go:31-33 | every word of the code list becomes its byte, 0x80 to 0x99, wherever it stands |
| `CodecBytes.ValueBytesAre` | utils/computils.go:491-614 | the bytes of any value written out: type byte and as many bytes as the number needs, booleans, floats, and other texts in quotes |
| `CodecBytes.FlatBytes` | utils/computils.go:80-147 | a flat message in any spacing becomes, member by member, 0x80 and the verb, 0x81, 0x82 or 0x85 and the value's bytes, 0x83 and the packed time, 0x84 and the two bytes of the path's place in the list (or the path itself) |
| `CodecBytes.GrammarWords` | utils/computils.go:31-33 | the words of the grammar's members: which keys take a value, which open an object or an array, and the five verbs |
| `CodecBytes.WordReads` | utils/computils.go:357-401 | what the decoder makes of each word without a payload, with its colon and its comma |
| `CodecBytes.FrontBrace` | utils/computils.go:55-78 | the decoder puts a first brace only where there is none; nothing stays nothing |
| `CodecLosses.ValueMessageIff` | utils/computils.go:97-143 | a message of one value alone, of any text and in any spacing, is restored exactly when the text is no code word, is kept or empty, and its last byte is not 0x7D; a code word makes the decoder panic |
| `CodecOddParts.UnlistedPathLost` | utils/computils.go:206-212 | a message of the grammar with a path that is not listed, anywhere among its parts and in any spacing, is never restored, neither as it is nor with dots |
| `CodecOddParts.OddValueLost` | utils/computils.go:97-143 | nor is one with a value that is a code word, or that the codec does not keep |
| `CodecTokens.TokenMessageIff` | utils/computils.go:383-390 | a message that carries an access token, in any spacing, is restored exactly when the token is its last member and every comma in front of it is where the decoder puts one |
| `CodecMessages.MessageCompresses` | utils/computils.go:80-147 | a message of the grammar, in any spacing, compresses to the codes of its parts in order |
| `CodecRoundTrip.PartsDecompress` | utils/computils.go:357-401 | these bytes decompress to the parts, with commas where the end of a part and the start of the next call for them |
| `CodecRoundTrip.RoundTripIff` | utils/computils.go:55-147 | the codec's law: decompressing a compressed message gives it back without spaces and with dotted paths, if and only if the commas, the array types and the last byte allow it |
| `CodecLimits.FlatRoundTripIff` | utils/computils.go:73-76 | for messages without data objects: exactly when no member but the last ends in 0x5B or 0x7B, the last not in 0x7D, and every array keeps to one type |
| `CodecLimits.DataNeverRestored` | utils/computils.go:383-390 | no message with a data or dp object is restored |
| `CodecLimits.TimeEnds` | utils/computils.go:447-464 | which minutes and seconds end a time stamp in a bracket byte |
| `CodecLimits.PathEnds` | utils/computils.go:426-439 | which path indices do |
| `CodecLimits.IntEnds` | utils/computils.go:491-526 | which integers do |
| `CodecLimits.OtherEnds` | utils/computils.go:599-614 | booleans and texts never end in a bracket byte |
| `CodecLimits.RequestId125Lost` | utils/computils.go:73-76 | the message {"requestId":"125"} is lost with every path list |
| `Json.ParseOfPrint` | utils/grcputils.go:31-42 | the JSON library at work: parsing a printed value of any kind gives it back, with any white space behind commas and opening brackets, and with the escapes of json.Marshal, those of quotes alone, or none (sections 3 to 7 of RFC 8259) |
| `JsonTexts.ParsedFits` | utils/grcputils.go:31-42 | what a text is parsed to is never longer than the text when it is printed without escapes and spaces, and as long only if the text is that print and needs no escape |
| `JsonTexts.Unparsable` | utils/grcputils.go:31-42 | no text is JSON in which nothing that can be read as a value stands behind a "parameter" key |
| `Json.TrimmedIsJoined` | utils/grcputils.go:825-846 | appending a comma to every item and trimming the last gives the comma-joined list |
| `GrpcConverter.Converter.GetJsonDp` | utils/grcputils.go:848-869 | the loop over data points prints the canonical JSON of one point or of an array |
| `GrpcConverter.Converter.CreateJsonData` | utils/grcputils.go:825-846 | the loop over data packages, the same |
| `GrpcConverter.Converter.GetJsonFilter` | utils/grcputils.go:700-718 | the filters, one as an object and several as an array |
| `GrpcConverter.Converter.SynthesizeFilter` | utils/grcputils.go:720-816 | one filter with its parameter |
| `GrpcConverter.Converter.GetResponsePbToJson` | utils/grcputils.go:607-623 | a get response is printed as the canonical text of its JSON value |
| `GrpcConverter.Converter.SubscribeStreamPbToJson` | utils/grcputils.go:656-681 | a subscription response or event, the same |
| `GrpcConverter.Converter.RequestPbToJson` | utils/grcputils.go:599-605 | a get or subscribe request, the same |
| `GrpcConverter.Converter.CreateDataPoints` | utils/grcputils.go:309-338 | the loop that reads data points from an object or an array |
| `GrpcConverter.Converter.CreateDataElements` | utils/grcputils.go:274-307 | the loop that reads data packages |
| `GrpcConverter.Converter.GetResponseJsonToPb` | utils/grcputils.go:220-253 | reading a get response from its text |
| `GrpcReads.PackagesIff` | utils/grcputils.go:274-338 | which data packages are read from any JSON values: each an object with a path and one or more points of value and time, packed in level 2; everything else panics |
| `GrpcReads.GetResponseIff` | utils/grcputils.go:220-272 | which get response is read from any JSON object, printed by the converter or not: data packages, the metadata where there are none, or the error; null is as good as no member, but not inside an error |
| `GrpcReads.StreamIff` | utils/grcputils.go:499-544 | which response or event is read from any JSON object; only the action tells them apart |
| `GrpcReads.FilterIff` | utils/grcputils.go:340-460 | which filter is read from any JSON value, by its type, and what its parameter must be |
| `GrpcReads.RequestIff` | utils/grcputils.go:182-218 | which get or subscribe request is read from any JSON object: one filter or an array of two, and no filter from anything else |
| `GrpcRoundTrip.PathIndexBack` | utils/grcputils.go:285-307 | at level 2 a path index comes back through the path list, every negative one as -1 |
| `GrpcRoundTrip.GetResponseRoundTripIff` | utils/grcputils.go:220-253 | to JSON and back a get response is itself up to normal form exactly when its data can be printed and it has a request id; otherwise the conversion fails |
| `GrpcRoundTrip.StreamRoundTripIff` | utils/grcputils.go:499-544 | the same for subscription responses, which need a request id, and events, which need a subscription id and data that can be printed |
| `GrpcExact.GetResponseExactIff` | utils/grcputils.go:220-253 | for get responses with any texts: the identity exactly when there is data to print or an error, a request id, and no text that needs an escape |
| `GrpcExact.StreamExactIff` | utils/grcputils.go:499-544 | the same for subscription responses and events |
| `GrpcTexts.GetResponseText` | utils/grcputils.go:607-623 | the text of a get response written out, with its data or error, time, request id and token |
| `GrpcTexts.SubscribedText` | utils/grcputils.go:656-667 | the text of a subscription response |
| `GrpcTexts.EventText` | utils/grcputils.go:668-681 | the text of a subscription event |
| `GrpcTexts.RequestWritten` | utils/grcputils.go:599-605 | the text of a get or subscribe request |
| `GrpcTexts.ParameterIs` | utils/grcputils.go:720-816 | the text of a filter of each type |
| `GrpcTexts.GetResponsePrintsIff` | utils/grcputils.go:825-869 | printing a get response panics exactly when it has no error and no data, a package without points, or a path index behind the list |
| `GrpcTexts.StreamPrintsIff` | utils/grcputils.go:656-681 | printing an event the same; responses to subscriptions are always printed |
| `GrpcTexts.RequestPrintsIff` | utils/grcputils.go:700-789 | printing a request panics exactly on an empty list of filters, of paths or of bounds |
| `GrpcRestored.RequestRoundTripIff` | utils/grcputils.go:182-218 | the same for every request: at most two filters, none of them a range, metadata or undefined, and no text that needs an escape |
| `GrpcRequests.RequestReads` | utils/grcputils.go:340-424 | what a request is read back as from its text: three filters are dropped, a range fails, dynamic metadata fails unless its text is a JSON string, static metadata keeps only its type |
| `GrpcRequests.RequestFails` | utils/grcputils.go:700-816 | a request with a parameter that cannot be read as a JSON value in its place fails, whatever its other texts |
| `GrpcRequests.WordFails` | utils/grcputils.go:808-816 | so it does with a metadata filter whose text is empty or an ordinary word |
| `GrpcRequests.RangesFail` | utils/grcputils.go:410-424 | a printed range parameter can never be read |
| `ConversionTool.BuildEnumMap` | tools/DomainConversionTool/DomainConversionTool.go:632-636 | the append-and-trim loop builds the canonical text of the map; on empty lists it panics |
| `ConversionTool.Tool.InternText` | tools/DomainConversionTool/DomainConversionTool.go:637-644 | the index of a known text, or of the text put behind the list |
| `ConversionTool.Tool.GetConversionTypeForEnum` | tools/DomainConversionTool/DomainConversionTool.go:616-645 | the index of the map of two lists, or the failure number |
| `ConversionTool.Tool.GetConversionTypeForLinear` | tools/DomainConversionTool/DomainConversionTool.go:647-678 | the index of the coefficient text of two units; an entry of the other direction is inverted in place, a number that cannot be read gives the failure number |
| `ConversionTool.Tool.CreateFeederConversionData` | tools/DomainConversionTool/DomainConversionTool.go:583-598 | the two rows of a mapping and its conversion index, in the order of the conditions |
| `ConversionTool.Tool.PopulateConversionTable` | tools/DomainConversionTool/DomainConversionTool.go:546-561 | the table of all complete mappings |
| `FeederArray.GetCorrespondingIndex` | tools/DomainConversionTool/DomainConversionTool.go:792-800 | the first other element of the pair |
| `FeederArray.PartnerFinds` | tools/DomainConversionTool/DomainConversionTool.go:792-800 | none of the elements in front of it has the pair's id, or there is none at all |
| `FeederArray.ReorderMapIndex` | tools/DomainConversionTool/DomainConversionTool.go:778-790 | in place: every pair id becomes the partner's index, or nothing changes |
| `FeederArray.LinkedIff` | tools/DomainConversionTool/DomainConversionTool.go:778-800 | afterwards each element points to another that points back, exactly when no pair id occurs three times |
| `FeederArray.UnpartneredUnchanged` | tools/DomainConversionTool/DomainConversionTool.go:781-786 | one id without a partner leaves the whole array unchanged |
| `FeederArray.TooLongUnchanged` | tools/DomainConversionTool/DomainConversionTool.go:792-800 | at 65536 elements an existing partner is taken for none |
| `FeederArray.WriteElement` | tools/DomainConversionTool/DomainConversionTool.go:814-826 | the bytes of an element overwrite the file at the cursor |
| `FeederArray.WriteArrayToFile` | tools/DomainConversionTool/DomainConversionTool.go:802-812 | the array overwrites the start of a file that is not truncated |
| `FeederArray.ReadElementFrom` | feeder/feeder-template/feederv2/feederv2.go:91-140 | one element, zeros being read behind the end |
| `FeederArray.ReadFeederMap` | feeder/feeder-template/feederv2/feederv2.go:72-88 | elements up to the first without a name |
| `FeederArray.CreateFeederArray` | tools/DomainConversionTool/DomainConversionTool.go:746-776 | rows in the order of the query become the linked array in the file; a number out of range stops it |
| `FeederArray.ElementRoundTrip` | feeder/feeder-template/feederv2/feederv2.go:91-140 | an element with negative types and 16-bit fields is read back, whatever follows |
| `FeederArray.FileRoundTripIff` | feeder/feeder-template/feederv2/feederv2.go:72-88 | the file gives the array back exactly when names have 1 to 255 bytes and nothing named is left over behind it |
| `FeederBytes.ElementLayout` | tools/DomainConversionTool/DomainConversionTool.go:814-850 | the bytes of an element: partner, length and text of the name, type, datatype and conversion index |
| `FeederBytes.TypeNumbers` | tools/DomainConversionTool/DomainConversionTool.go:680-689 | the numbers of the types, -1 for others |
| `FeederBytes.DatatypeNumbers` | tools/DomainConversionTool/DomainConversionTool.go:691-722 | the numbers of the datatypes, -1 for others |
| `ScalingFile.InsertEscapes` | tools/DomainConversionTool/DomainConversionTool.go:453-470 | quotes get a backslash, each other byte is printed as a code point |
| `ScalingFile.WriteScaleDataList` | tools/DomainConversionTool/DomainConversionTool.go:432-451 | the boolean entry and the scaling texts, with their commas |
| `ScalingRoundTrip.ScalingRoundTripIff` | feeder/feeder-template/feederv2/feederv2.go:53-70 | for any texts and any older file: the feeder reads the boolean entry and the list exactly when the list is not empty, all is ASCII without backslashes and control characters, and nothing but white space is left over |
| `ScalingRoundTrip.CharsExact` | tools/DomainConversionTool/DomainConversionTool.go:453-470 | a text that is read back from its escaped form, whatever stands behind it, was ASCII without backslashes and control characters, and reading stopped at its own quote |
| `Feeder.EnumConversion` | feeder/feeder-template/feederv2/feederv2.go:335-349 | what visiting the map in any order may return |
| `Feeder.ConvertValue` | feeder/feeder-template/feederv2/feederv2.go:312-333 | the conversion that the index selects, and the panics |
| `Feeder.ConvertDomainData` | feeder/feeder-template/feederv2/feederv2.go:300-310 | the partner's name and the converted value; a panic for unknown names |
| `Feeder.EnumForward` | feeder/feeder-template/feederv2/feederv2.go:335-349 | exactly which results each listed value can have, in both directions |
| `Feeder.EnumRoundTripIff` | feeder/feeder-template/feederv2/feederv2.go:335-349 | north to south and back is certain to be the identity exactly when the southern values are distinct |
| `Feeder.LinearRoundTrip` | feeder/feeder-template/feederv2/feederv2.go:351-369 | over the reals, A x + B and back gives x |
| `ConversionPipeline.InternStable` | tools/DomainConversionTool/DomainConversionTool.go:637-644 | an interned text stands at its index, old indices stay, no text stands twice |
| `ConversionPipeline.ScaleGrows` | tools/DomainConversionTool/DomainConversionTool.go:637-644 | over all mappings the list only grows, by one text at most for each, and holds none twice |
| `ConversionPipeline.TableLoads` | tools/DomainConversionTool/DomainConversionTool.go:746-776 | any sorted permutation of the table loads every complete mapping into the array, names ascending |
| `ConversionPipeline.NamesTranslate` | feeder/feeder-template/feederv2/feederv2.go:300-310 | end to end: for at most 32767 mappings with distinct names of at most 255 bytes, whatever the sort does, the feeder's search takes each name to its partner and back, a fixed-point-free involution, and finds no other name |
| `ConversionPipeline.SignalsArrive` | tools/DomainConversionTool/DomainConversionTool.go:746-776 | each signal of a complete mapping arrives with its own type and datatype |
| `ConversionValues.EnumIndexAgrees` | tools/DomainConversionTool/DomainConversionTool.go:583-598 | the tool's offset of two and the feeder's of one meet at the interned map |
| `ConversionValues.UnitIndexAgrees` | tools/DomainConversionTool/DomainConversionTool.go:583-598 | the same for coefficient texts |
| `ConversionValues.EnumEndToEnd` | feeder/feeder-template/feederv2/feederv2.go:300-349 | end to end over both files: each listed value goes to its partner signal and value, and back |
| `ConversionValues.UnlistedEndToEnd` | feeder/feeder-template/feederv2/feederv2.go:335-349 | a value that is not listed arrives as the empty text |
| `ConversionValues.BooleanEndToEnd` | feeder/feeder-template/feederv2/feederv2.go:312-349 | the same for booleans, once there is any scaling text |
| `ConversionValues.BooleansAlone` | tools/DomainConversionTool/DomainConversionTool.go:432-451 | without one, the feeder reads no list and fails on every boolean |
| `ConversionValues.PlainEndToEnd` | feeder/feeder-template/feederv2/feederv2.go:312-315 | signals of one unit without an enumeration in the north, not both boolean: every value arrives as it is, both ways, whatever the scaling list holds |
| `ConversionValues.UnconvertiblePanics` | tools/DomainConversionTool/DomainConversionTool.go:583-598 | signals for which there is no conversion are linked all the same, and the feeder panics on each of their values |
| `ConversionValues.LinearEndToEnd` | feeder/feeder-template/feederv2/feederv2.go:300-369 | end to end over both files: a number x in the northern unit goes to the partner signal as A x + B, and that number back as x, by the coefficients that the mapping was given: those of its own direction or, after an odd number of inversions, of the other |
| `ConversionValues.NoNumberEndToEnd` | feeder/feeder-template/feederv2/feederv2.go:351-358 | a text that is no number arrives as the empty text |
| `ConversionValues.ForeignEntry` | feeder/feeder-template/feederv2/feederv2.go:311-332 | with an entry that is no JSON or null a value arrives as the empty text; with a string, a boolean or a number the feeder panics |
| `ConversionUnits.GivenReads` | tools/DomainConversionTool/DomainConversionTool.go:647-678 | the coefficients that each mapping of a run gets: those of its entry, inverted once for each use of the entry against its direction up to this one |
| `ConversionUnits.EntryIsFirst` | tools/DomainConversionTool/DomainConversionTool.go:647-653 | a mapping uses the first entry with its two units, in either order |
| `ConversionUnits.TurnedInverts` | tools/DomainConversionTool/DomainConversionTool.go:653-667 | the inverted coefficients take A x + B back to x |
| `ConversionUnits.OwnCoefficientsIff` | tools/DomainConversionTool/DomainConversionTool.go:653-667 | they are those of the mapping's own direction exactly when the number of earlier uses against the entry's direction is even, or the entry is its own inverse |
| `ConversionUnits.SelfInverseIff` | tools/DomainConversionTool/DomainConversionTool.go:653-667 | an entry is its own inverse exactly for A = 1 and B = 0, and for A = -1 |
| `ConversionUnits.SecondGetsOther` | tools/DomainConversionTool/DomainConversionTool.go:653-667 | two mappings from the second unit to the first: the first gets 1/A and -B/A, the second A and B |
| `TreePrinter.JsonifyTreeNode` | server/vissv2server/vissv2server.go:310-356 | the recursion with its appended and trimmed text, for every tree, depth and start text |
| `TreePrinter.SynthesizeJsonTree` | server/vissv2server/vissv2server.go:440-460 | the answer to a metadata request |
| `TreePrinter.HealthyNode` | server/vissv2server/vissv2server.go:310-356 | the appended and trimmed text is the canonical JSON of the tree down to the depth |
| `TreePrinter.TreeReadBack` | server/vissv2server/vissv2server.go:440-460 | the answer is a JSON object of the truncated tree, children in order, exactly when no printed node has only children of unknown type; else it is no JSON |
| `TreePrinter.LeafAnswer` | server/vissv2server/vissv2server.go:310-335 | the answer for a sensor, actuator or attribute written out |
| `TreePrinter.BranchAnswer` | server/vissv2server/vissv2server.go:336-356 | the answer for a branch with one signal written out, at depth 1 without its child |
| `AccessLevel.FoldedIff` | utils/common.go:29-49 | folding the matrix from -1 gives the highest digit, with consent if any level needs it, and nothing else |
| `AccessLevel.OrderAndRepetition` | utils/common.go:29-49 | the order and the repetition of levels do not matter |
| `AccessLevel.OneOfThree` | server/vissv2server/vissv2server.go:707-742 | the last digit is 0, 1 or 2 |
| `Dispatcher.Server.SetErrorResponse` | utils/common.go:255-286 | which fields of the error response are set, kept and deleted |
| `Dispatcher.Server.ServeRequest` | server/vissv2server/vissv2server.go:571-606 | one message for each request that does not panic, none for one that does; only a refusal changes the error response |
| `Dispatcher.Server.IssueServiceRequest` | server/vissv2server/vissv2server.go:608-751 | the same for the part behind the checks |
| `Dispatcher.Server.ReadFilters` | server/vissv2server/vissv2server.go:616-667 | the loop over filters: the paths of the first paths filter, or what ends the request before |
| `Dispatcher.UnpackFilter` | utils/common.go:339-398 | the list of filters that a decoded filter stands for, whatever order Go visits its maps in |
| `Dispatcher.Server.CheckAndForward` | server/vissv2server/vissv2server.go:672-751 | search, access check and forwarding |
| `Dispatcher.SearchAll` | server/vissv2server/vissv2server.go:679-692 | all found nodes in order, their quoted paths, and the folded level |
| `Dispatcher.TrimPaths` | server/vissv2server/vissv2server.go:703-708 | one path as it is, several as a canonical JSON array |
| `DispatcherFilters.UnpackedMay` | utils/common.go:368-398 | whatever the order: the type is that of the "type" member, and the parameter that of the "parameter" member or of some object member |
| `DispatcherFilters.UnpackedIff` | utils/common.go:368-398 | exactly these lists come from some order |
| `DispatcherRuns.History` | utils/common.go:255-286 | over any history: as many messages as requests, and the error response shows the last refused request that had each field |
| `DispatcherRuns.ErrorReply` | utils/common.go:255-286 | an error reply goes to the channel of the manager that the request came from, with the request's own id; its other fields are its own or left over from an earlier refusal |
| `DispatcherRuns.NeverUnavailable` | server/vissv2server/vissv2server.go:737-741 | the switch's default branch is never reached |
| `DispatcherForwards.Dispatched` | server/vissv2server/vissv2server.go:672-751 | for each get, set or subscribe request and what it asks about: refused when nothing is found, when a set request finds no actuator, or with the token's error; else the service gets the found paths in order (one as it is, several as a text that reads as their array), what the token server gave, and the request's other fields without its origin |
| `DispatcherForwards.PathsFilter` | server/vissv2server/vissv2server.go:616-640 | with a paths filter the paths that are searched are those of the filter, below the request's own |
| `DispatcherForwards.FilterDecides` | server/vissv2server/vissv2server.go:629-667 | the other filters that decide: metadata go back under the token's context, a request for the capabilities goes to the service, unreadable paths are refused |
| `DispatcherForwards.EndedEarly` | server/vissv2server/vissv2server.go:571-606 | which requests end before, and how |
| `DispatcherForwards.ValidIff` | server/vissv2server/vissv2server.go:469-567 | which words the text of a request must hold |
| `DispatcherForwards.NoToken` | server/vissv2server/vissv2server.go:716-720 | without a token a request for something protected is refused with the message for that |
| `DispatcherForwards.BadToken` | server/vissv2server/vissv2server.go:194-231 | a request whose token is not accepted is refused with the text that stands for the token server's number |
| `TokenServer.QuestionReads` | server/vissv2server/vissv2server.go:233-238 | for one plain path the token server reads an object of token, paths, action and validation |
| `TokenServer.QuestionFails` | server/vissv2server/vissv2server.go:233-238 | for several paths it reads no JSON |
| `TokenServer.SeveralPathsRefused` | server/vissv2server/atServer/atServer.go:262-268 | so a get, subscribe or set request whose search finds several paths is refused whenever its token is looked at, whatever the token is, with one of two texts |
| `DispatcherForwards.FirstReply` | server/vissv2server/vissv2server.go:105-111 | the error reply of a fresh server |
| `DispatcherGuards.SetSearchesOnce` | server/vissv2server/vissv2server.go:698-702 | a set request searches once, so that its first node exists where it is looked at |
| `DispatcherGuards.SetGuardedIff` | server/vissv2server/vissv2server.go:698-742 | for each decoded request: whatever the server, what is set is an actuator, and a protected one only with a token accepted for just this path, action and level, exactly unless the request is a set request that can be carried out and says it is internal |
| `DispatcherGuards.ReadGuardedIff` | server/vissv2server/vissv2server.go:608-751 | for each decoded request: on every server and in every order of Go's maps, a get or subscribe request for a path protected for reading is forwarded only with an accepted token, exactly when no list that its filter may stand for lets it pass |
| `DispatcherGuards.OutsideUnguardedIff` | server/vissv2server/vissv2server.go:616-667 | a request that does not say it is internal may pass exactly when a server_capabilities filter stands in front of its first paths or static-metadata filter |
| `DispatcherTexts.DecodedClient` | utils/managerhandlers.go:61-71 | whatever text a client sends: what the dispatcher decodes are the manager's members with the client's behind them, and nothing if the client's cannot be read |
| `DispatcherTexts.OriginIff` | utils/managerhandlers.go:65-71 | any client text is taken for internal exactly when its own last origin member says so |
| `DispatcherTexts.SetTextGuardedIff` | server/vissv2server/vissv2server.go:698-742 | the guard of set requests for every text a client may send: it holds exactly unless the text is a set request that can be carried out and says it is internal |
| `DispatcherTexts.InternalSetPasses` | server/vissv2server/vissv2server.go:709-712 | such a text, set without a token |
| `DispatcherTexts.ReadTextGuardedIff` | server/vissv2server/vissv2server.go:608-751 | the guard of get and subscribe requests for every text a client may send, with the lists that the text's own filter may stand for |
| `DispatcherTexts.OutsideTextIff` | server/vissv2server/vissv2server.go:664-667 | a text that does not say it is internal may pass exactly when a server_capabilities filter stands in front of its first paths or static-metadata filter |
| `DispatcherTexts.InternalActionIff` | server/vissv2server/vissv2server.go:608-612 | a client's text with an internal action is forwarded on every server, without a search or a token, exactly when it has no path, or one without wildcards |
| `DispatcherTexts.CapabilitiesPass` | server/vissv2server/vissv2server.go:664-667 | a text with two filters that is forwarded unchecked, whatever json.Marshal prints |
| `DispatcherTexts.RouterIdIff` | utils/managerhandlers.go:65-71 | the decoded request has the inserted router id exactly when the client's members hold no other one |
| `DispatcherTexts.AnswerRouter` | utils/common.go:255-286 | after any history: the message for a request, forwarded as it is, decoded or refused, names the asking client exactly when the client's members hold no other router id |
| `DispatcherTexts.UndecodedRouter` | utils/common.go:255-286 | after any history: a text that is not decoded is refused under the router id that was refused last |
| `DispatcherTexts.EmptyRouted` | utils/managerhandlers.go:65-71 | with the insertion {} cannot be decoded |
| `DispatcherTexts.StaleRouter` | utils/common.go:255-286 | the client that sends {} is answered under the router id of the client refused before |
| `DispatcherTexts.StaleSubscription` | utils/common.go:267-269 | two client texts where the reply to the second shows the subscription of the first |
| `DispatcherRuns.PathsRead` | server/vissv2server/vissv2server.go:703-708 | the service can read the forwarded paths back |
| `Routing.ManagerReadBack` | server/vissv2server/vissv2server.go:113-129 | the core reads the manager's id back from any message that holds the property |
| `Routing.ClientReadBack` | utils/managerhandlers.go:380-389 | the manager reads the client's id back, and what it leaves of the message |
| `Routing.RoutingRoundTrip` | utils/managerhandlers.go:61-71 | for all ids and any body: inserted, read back, and taken out again |
| `Routing.RoutedMessage` | utils/managerhandlers.go:61-71 | the routed message written out; one without a brace stays as it is |
| `Routing.RemovedIff` | utils/managerhandlers.go:380-389 | the rest of the message is left intact exactly when a comma follows the property |
| `DispatcherReplies.ErrorReplyText` | utils/managerhandlers.go:380-389 | after any history, the text of an error reply that shows a client's router id gives the manager that client's id, and leaves the object of all other fields |
| `DispatcherReplies.MetadataText` | utils/common.go:298-306 | the answer to a metadata request is one JSON object, the message's members and the tree, if no printed node of the tree has only children of unknown type, and no JSON if one has |
| `PopCache.AgtServer.AddCheckJti` | server/agt_server/agt_server.go:198-213 | a known identifier is refused; a new one goes into the cache and gets its deletion |
| `PopCache.AgtServer.DeleteJti` | server/agt_server/agt_server.go:215-218 | the end of a deletion |
| `PopCache.AgtServer.GenerateLTAgt` | server/agt_server/agt_server.go:232-251 | the order of the checks and the answer, and their place in the protocol |
| `PopCache.AgtServer.CheckIat` | utils/datatypes.go:436-450 | the acceptance window in whole seconds |
| `PopCache.EveryRun` | server/agt_server/agt_server.go:198-218 | on every run each cached identifier has exactly one deletion to come, and acceptances of one identifier lie a retention time apart |
| `PopCache.AtMostOnceIff` | server/agt_server/agt_server.go:198-251 | for any tolerance and lifetime that leave a window to accept tokens in: no token is ever accepted twice, exactly when the time from cache to clock is at most 6 seconds less the tolerance |
| `PopCache.AcceptedIff` | utils/datatypes.go:436-450 | after any run, a token with a new identifier is accepted exactly when it is signed and fits and the second of the check lies strictly between its iat claim less the tolerance and the claim plus tolerance and lifetime; its identifier is cached for both and five seconds more |
| `PopCache.OwnSecond` | server/agt_server/agt_server.go:33-34 | a token is accepted in its own second; with the server's constants from two seconds before to 302 seconds behind |
| `PopCache.ThreeSeconds` | server/agt_server/agt_server.go:33-34 | with the server's constants: exactly when it is at most three seconds |
| `Claims.JsonWebToken.AddClaim` | utils/datatypes.go:67-69 | one more claim in the payload |
| `Claims.JsonWebToken.JsonRecursiveMarshall` | utils/datatypes.go:31-44 | the text with one more member |
| `Claims.PayloadPrinted` | utils/datatypes.go:31-44 | after any sequence of claims the payload is the canonical JSON object of those with key and value, nested objects included |
| `Claims.ClaimReadBackIff` | utils/common.go:188-228 | a claim whose name first occurs as its key is found in the full token exactly when its value holds no comma |
| `YamlWriter.DecomposePath` | tools/DomainConversionTool/DomainConversionTool.go:989-999 | all parents of a path, the last one twice; a panic for a path without dots |
| `YamlWriter.Writer.WriteBranches` | tools/DomainConversionTool/DomainConversionTool.go:959-980 | the text of the branches that are new, in order, at the cursor |
| `YamlWriter.Writer.CreateYamlFile` | tools/DomainConversionTool/DomainConversionTool.go:939-957 | the text of the items overwrites the start of a file that is not truncated; a path without dots panics |
| `YamlWriter.TreeHolds` | tools/DomainConversionTool/DomainConversionTool.go:939-999 | each branch once, each item behind its parents, nothing but parents of later signals as branches, signals in order |
| `YamlWriter.OwnTree` | tools/DomainConversionTool/DomainConversionTool.go:1215-1222 | every complete file that a run of the tool writes, its branch list being empty, is a tree of its own |
| `YamlWriter.TreeFailsIff` | tools/DomainConversionTool/DomainConversionTool.go:989-999 | writing a complete file panics exactly when some path has no dot |
| `YamlWriter.FileHolds` | tools/DomainConversionTool/DomainConversionTool.go:939-957 | what either kind of file holds: "complete" with the branches, each once and in front of what is below it, or a panic on a path without a dot; anything else the signals alone |
| `YamlText.TextKeys` | tools/DomainConversionTool/DomainConversionTool.go:975-980 | the outermost keys of the file's text are the paths of its items, in order |
| `Files.NothingLeftIff` | tools/DomainConversionTool/DomainConversionTool.go:944-944 | the file holds just what was written exactly when the older one was not longer |

## Left out

- CodecRoundTrip.RoundTripIff: its grammar covers action, path, requestId, value, subscriptionId, ts, data and dp members, and CodecTokens.TokenMessageIff one authorization member among them; filter objects, empty strings and other keywords are compressed and decompressed by the model, but the laws do not speak of them.
- CodecTokens.TokenMessageIff: for ASCII tokens without quotes and closing braces, and with no array of values in front of the token (the codec would take the token for one more value).
- CodecOddParts.UnlistedPathLost: for path lists whose entries hold no quote, unless the path is the last member, and a library that prints floats without quotes, none as the word float.
- CodecOddParts.OddValueLost: for such a library; empty values are left to CodecValues.EmptyStringSwallows.
- PathList.SearchFinds: that the list is sorted is a premise; the library's sort of the path list is not part of this model.
- Compressor.Compressor.CompressMessage: a time stamp token of fewer than 20 bytes is modelled as a panic; what Go reads between the length and the capacity of a slice is not modelled.
- The codec's float32 encoding, its printing and the test for floats: parameters of the model.
- Json.ParseOfPrint: escapes of surrogate pairs, the replacement of invalid UTF-8, and the escapes that json.Marshal writes for the line separators of Unicode are not modelled.
- GrpcRoundTrip.GetResponseRoundTripIff: for texts that need no escape; GrpcExact.GetResponseExactIff speaks of the others. The time codec of level 2 is a parameter that reads back what it prints.
- GrpcRoundTrip.StreamRoundTripIff: the same, with GrpcExact.StreamExactIff.
- GrpcExact.GetResponseExactIff: with texts that need an escape, for level 1 and errors with a number (a missing number is read as an empty one).
- GrpcExact.StreamExactIff: the same, and not for error responses with a subscription id, which the reader does not look for.
- GrpcRestored.RequestRoundTripIff: for an action that needs no escape, as the five that the server knows; with a range of one bound with two empty texts, which the reader also makes of a parameter of the wrong type, only if no text needs an escape.
- The set and unsubscribe converters, and metadata-only responses: the same members again, or no inverse.
- ScalingRoundTrip.ScalingRoundTripIff: the replacement of invalid UTF-8 is not modelled; the tool's printing of a code point is.
- Feeder.LinearRoundTrip: over the reals, with parsing and printing of numbers as parameters that read back what they print; rounding is not modelled.
- ConversionValues.LinearEndToEnd: the same.
- ConversionValues.EnumEndToEnd: for lists whose texts need no escape and are distinct, and scaling texts that the scaling file keeps.
- The reading of the unit table from its YAML file: the table is a sequence of entries.
- The SQL tables of the tool: a sequence of rows, and for the sorted query any permutation in ascending byte order of names.
- TreePrinter.TreeReadBack: for names, descriptions and datatypes that need no escape; the tree search is not part of this model.
- Dispatcher.Server.ServeRequest: the tree search, the token server, the clock, the text that json.Marshal gives a filter parameter and the order in which Go visits maps are parameters.
- TokenServer.SeveralPathsRefused: for a token that needs no escape, and found paths that start with neither a space, a comma nor a brace; what the token server makes of questions that it can read is a parameter.
- DispatcherTexts.AnswerRouter: for a RouterId member other than null, with which an error reply names the client that was refused last.
- Routing.RoutingRoundTrip: for messages with no earlier brace or RouterId text in front of the inserted property.
- PopCache.AtMostOnceIff: the clock does not run backwards; cache accesses of requests and deletions are single steps; signature, audience and key checks are parts of the token.
- Claims.ClaimReadBackIff: base64url is a parameter that decodes what it encodes and yields no dot.
- YamlWriter.TreeHolds: the property lines of a signal are one text.
- The client index list of the websocket manager, role checks of the grant server, Redis and SQL state storage, transports, key handling and the JavaScript clients.
- Near copies of modelled code in utils/pbutils.go and the EVIC feeder.
- Data races between goroutines on package state: each request is handled as one step, except in the replay cache.
