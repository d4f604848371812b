# Verified model of Ollama's migration, agent, stream and import code

A Dafny 4.11 project. It models four parts of the repository and proves what they promise, for all inputs:

1. **Tensor relayout and GGUF output** (`compatmigrate/`). Tensors are row-major data of any rank (`RowMajor`,
   `Permutations`, `TensorLayout`). The loops of the Go code (`LayoutOps`, `PermuteOp`) are proved equal to
   multi-index definitions; `LayoutLaws` relates them to each other; the hand-written repackers
   (`Repackers`, `PatchRepackers`, `GlmRepacker`, with `SmallRanks`) and the shape builders (`TensorOps`, `OutTensors`) are proved to
   be compositions of them. `BlockFormat`, `WordBits`, `RowDecoders` and `RowReader` decode packed blocks, and `PackedBlocks` packs them.
   `GgufFormat`, `GgufRoundTrip`, `StableSort`, `GgufWriter` and `FloatPayload` write a GGUF version 3 file and read it back with a
   parser written from the GGUF specification, section "File Structure". `SourceTensors` reads, repacks and encodes source tensors,
   `FilledRegions` counts the bytes every kind of output writes, and `MigratedFile` puts them in the file.
2. **The agent run loop and compaction** (`agent/session.go`, `agent/compactor.go`): `Text`, `AgentMessages`, `ToolBudget`,
   `Compaction`, `CompactionSplit`, `CompactionPairing`, `CompactionSurvival`, `RunHistory`, `Compactor`, `SessionState`, `ToolBatch`,
   `AgentRun`.
3. **The Anthropic stream converter** (`anthropic/anthropic.go`): `AnthropicStream`, `StreamGrammar`, `StreamContent`,
   `StreamRefinement`, `StreamConversion`.
4. **The import planner** (`create/`): `ExpertNames`, `ExpertPrefixes`, `ImportPlan`, `ExpertGroups`, `ExpertStacks`,
   `ExpertPlanner`, `PlanSources`, `BlockFP8Plan`, `PrequantPlan`, `PrequantPlaces`, `Planner`, `BlobWriter`, `ModelImport`.

`dafny verify dfyconfig.toml` checks everything.

## How the code is represented

- Objects the Go code updates are classes (`GgufWriter.File`, `SessionState.Session`, `AgentRun.RunState`,
  `AnthropicStream.StreamConverter`, `Compactor.SimpleCompactor`); loops are methods with invariants, proved against functions and
  predicates about which the laws are lemmas. Long Go functions are divided into methods branch by branch.
- Floats are values of any type in the layout code and terms of a small expression datatype in the decoders: what is
  proved is which value goes where and how it is computed, not how it rounds. In `GgufFormat` floats are bit patterns.
- Parties outside the code answer arbitrarily: event sinks may fail, and the context may be canceled at any moment and stays so.
  The chat client is an arbitrary function of the request number and the messages; tools, the user's approval and the summarizing
  model are arbitrary functions of what they are asked and of how much has happened before; the size estimate is an arbitrary
  function of the history. So contracts can say that an answer is what the tool returned, and a limit what the estimate says.
  The quantization policy and JSON marshalling are arbitrary functions. The planners take any function from names to group
  prefixes; `ExpertPrefixes` is the one the code uses.
- A function that models code is pinned by something that does not mention it: a packer for the decoders, the bytes a reader finds
  for the writer, the blob in which each named tensor ends up for the planners, the words of the reply for the stream, and what the
  calls came to for the agent.
- Strings are sequences of runes; names in GGUF files are sequences of bytes.

## Where the code and its description differ

- `outTensor.size` (`compatmigrate/writer.go:75-83`) is described as padding the last block out to a whole block; the code
  cuts it short. `GgufWriter.SizeIsWholeBlocks` gives the exact condition and `GgufWriter.PartialBlockCutShort` an input.
- The writer sets tensors apart by their declared sizes. Copies, splits, concatenations, stacks, single rows and the GLM, Pixtral and
  Qwen3-VL outputs write exactly that many bytes (`FilledRegions`), so `MigratedFile.WriteMigrated` gives a file of filled regions.
- The concatenation along the slowest dimension is the exception: it declares the promoted type but copies stored bytes
  (`compatmigrate/tensor_ops.go:103-128`, `254-269`), where stacking falls back to encoding (`172-180`).
  `FilledRegions.SlowConcatFills` says that float sources fill the region exactly if none was promoted, and
  `FilledRegions.PromotedSlowConcatFallsShort` gives an input.
- A run without a tool registry ends on calls nobody answers (`agent/session.go:296-299`). `AgentRun.DoneIsPaired` says that
  this is the only way a run's history ends unpaired.
- A real tool named `summary` loses its call, but not its answer, to the next compaction if the call is in a kept turn:
  `CompactionSurvival.RealSummaryCallUnpaired`. `CompactionSurvival.CompactionSurvives` says exactly when a compacted history is
  well paired. It asks that answers to other calls do not go by the summary's name, which every batch a run answers keeps
  (`CompactionSurvival.BatchNamesApart`): an answer carries the name of its own call.
- A summary that ends with the continuation instruction does not read back when it was stored without it:
  `Compaction.SummaryTextReads` is an equivalence.
- A stream equals the one-shot response exactly for chunks in order and calls with distinct IDs:
  `StreamRefinement.StreamRefinesOneShot` is an equivalence.
- The scan for one quantization notices an unquantized tensor only after a quantized one: `BlobWriter.ScanOrderMatters`. Planned
  blobs never get there (`BlobWriter.PlannedNotMixed`).

## Model

| member | source | states |
|---|---|---|
| RowMajor.UnflatFlat | compatmigrate/tensor_layout.go:19-25 | Multi-indices of a shape and positions of its row-major data correspond one to one, at every rank. |
| RowMajor.FlatInRange | compatmigrate/tensor_layout.go:115-120 | Every multi-index within the shape lies within the data. |
| RowMajor.DotStrides | compatmigrate/tensor_layout.go:115-120 | The dot product with the row-major strides is the position. |
| RowMajor.FlatCarry | compatmigrate/tensor_layout.go:134-148 | Wrapping trailing axes and advancing the next one moves exactly one position. |
| Permutations.Onto | compatmigrate/tensor_layout.go:122-132 | n distinct axes below n are all the axes. |
| LayoutOps.TensorSize | compatmigrate/tensor_layout.go:19-25 | The loop computes the number of elements of a shape. |
| LayoutOps.CheckTensorDims | compatmigrate/tensor_layout.go:27-37 | Accepts exactly non-negative dimensions that match the data's length. |
| LayoutOps.SliceTensorDim | compatmigrate/tensor_layout.go:41-67 | The block copies produce the slice defined index by index, and refuse exactly the bad windows. |
| LayoutOps.ConcatTensorDim | compatmigrate/tensor_layout.go:69-103 | The block copies produce the concatenation defined index by index, and refuse exactly incompatible parts. |
| LayoutLaws.SliceOfConcat | compatmigrate/tensor_layout.go:41-103 | Slicing a concatenation at a part's window gives that part back, along any axis. |
| LayoutLaws.ConcatOfSlices | compatmigrate/tensor_layout.go:41-103 | Concatenating consecutive windows of a tensor gives the tensor back. |
| PermuteOp.SourceStrides | compatmigrate/tensor_layout.go:115-120 | The backward loop fills in the row-major strides. |
| PermuteOp.PlanPermutation | compatmigrate/tensor_layout.go:122-132 | Accepts exactly the permutations of the axes, with the permuted shape and strides. |
| PermuteOp.SourcePosition | compatmigrate/tensor_layout.go:134-148 | At every odometer position the running source index is in bounds and holds the element the permutation puts there. |
| PermuteOp.CarryStep | compatmigrate/tensor_layout.go:137-148 | Wrapping an axis keeps the running source index equal to the dot product of indices and strides. |
| PermuteOp.Turn | compatmigrate/tensor_layout.go:137-148 | One odometer turn moves to the next output position, with the source index following. |
| PermuteOp.WalkOutput | compatmigrate/tensor_layout.go:134-149 | The whole walk writes the permuted data. |
| PermuteOp.PermuteTensor | compatmigrate/tensor_layout.go:107-150 | Equals the multi-index permutation for every rank, shape and valid permutation; refuses exactly the rest. |
| LayoutLaws.PermuteMeaning | compatmigrate/tensor_layout.go:107-150 | The output at j is the input at the i with i[perm[k]] = j[k]. |
| LayoutLaws.PermuteCompose | compatmigrate/tensor_layout.go:107-150 | Two permutes are one permute by the composed permutation. |
| LayoutLaws.PermuteInverse | compatmigrate/tensor_layout.go:107-150 | A permute and the permute by its inverse restore data and shape. |
| TensorLayout.DotScatter | compatmigrate/tensor_layout.go:115-132 | The permuted strides address the source element of a permuted index. |
| TensorLayout.SizePermute | compatmigrate/tensor_layout.go:122-132 | A permuted shape holds as many elements. |
| TensorOps.SplitSourceTensorDim | compatmigrate/tensor_ops.go:11-52 | Splits exactly when the dimension divides; each output declares its own equal window, encoded in the promoted type. |
| TensorOps.SplitRebuilds | compatmigrate/tensor_ops.go:11-52 | Concatenating the windows of a split rebuilds the tensor. |
| TensorOps.ConcatSourceTensorsDim | compatmigrate/tensor_ops.go:54-89 | Accepts exactly joinable sources, declares the summed dimension and encodes the join in the promoted type. |
| TensorOps.ConcatSourceTensorsDimKind | compatmigrate/tensor_ops.go:131-162 | Accepts exactly sources whose shapes join, whatever their types, and encodes the join in the type asked for. |
| TensorOps.ConcatSourceTensorsSlowDim | compatmigrate/tensor_ops.go:91-129 | Accepts exactly joinable sources along the slowest dimension, declares the promoted type and copies the stored bytes. |
| TensorOps.StackSourceTensors | compatmigrate/tensor_ops.go:164-203 | Accepts exactly equal sources and declares one more slow dimension; bytes are copied exactly if no source is promoted, otherwise all are encoded. |
| TensorOps.JoinShape | compatmigrate/tensor_ops.go:54-162 | The shape loop sums the joined dimension and refuses exactly sources that differ elsewhere. |
| TensorOps.JoinFills | compatmigrate/tensor_ops.go:223-244 | Joined values have exactly as many elements as the declared shape. |
| TensorOps.SlowJoinIsConcat | compatmigrate/tensor_ops.go:254-269 | Values laid end to end are the concatenation along the slowest dimension, as many as the declared shape holds. |
| TensorOps.StackIsConcat | compatmigrate/tensor_ops.go:283-297 | Values stacked are the concatenation along a new slowest dimension, as many as the declared shape holds. |
| TensorOps.ConcatOutermost | compatmigrate/tensor_layout.go:69-103 | Concatenation along the outermost dimension is the parts' data end to end. |
| SourceTensors.WriteTo | compatmigrate/tensor_ops.go:223-297 | Every writer fails exactly where a source does not decode, a repacker or join refuses it, the type cannot be encoded or a row is not in the file, and otherwise writes the encoded or stored bytes. |
| SourceTensors.WriteRow | compatmigrate/tensor_row.go:46-80 | A row is written exactly if its type decodes and the file holds its bytes, and then as its own values encoded in F32. |
| SourceTensors.WriteConverted | compatmigrate/source_tensor.go:130-177 | A source is decoded, repacked and encoded in its output type, or refused exactly at one of these steps. |
| SourceTensors.Repack | compatmigrate/source_tensor.go:168-173 | Each repacker is the slice, permutation or window it stands for, on exactly the tensors it accepts. |
| SourceTensors.ValuesFill | compatmigrate/tensor_ops.go:341-379 | A complete source that decodes has as many values as its shape says, packed or not. |
| SourceTensors.NumBytesIsByteSize | compatmigrate/writer.go:75-83 | The bytes of a tensor of whole rows are the bytes the writer sets aside for it. |
| SourceTensors.FloatsReadBack | compatmigrate/source_tensor.go:265-311 | Encoded floats decode, in order, to the bit patterns they were encoded from, in each of the three float types. |
| OutTensors.Glm47FlashSplitKVB | compatmigrate/glm47_flash.go:199-241 | Accepts exactly splittable tensors; K and V declare their shapes in the source's own type. |
| OutTensors.KVRebuild | compatmigrate/glm47_flash.go:199-269 | What is written under K's name, turned back, and what is written under V's make up kv_b head by head. |
| OutTensors.CopyTensorRowF32 | compatmigrate/tensor_row.go:30-44 | Accepts exactly rows of tensors of two or more dimensions, as F32 outputs of one row's shape. |
| OutTensors.CopyWrites | compatmigrate/source_tensor.go:49-61 | A copied tensor keeps its name, shape and stored bytes; only one that must be F32, by either of its names, is decoded and encoded again. |
| OutTensors.PixtralWrites | compatmigrate/mistral_pixtral.go:151-179 | Queries and keys have their rows paired, tensors whose type changes are encoded again, and the rest are copied; F16 patch embeddings stay F16. |
| OutTensors.Qwen3VLSplitLegacyPatchTensor | compatmigrate/qwen3vl.go:209-280 | Accepts exactly two-frame patch tensors whose channels divide, and declares one output per frame. |
| FilledRegions.CopyFills | compatmigrate/source_tensor.go:49-61 | A copied tensor, promoted or not, writes exactly the bytes it declares. |
| FilledRegions.SplitFills | compatmigrate/tensor_ops.go:11-52 | Every output of a split writes exactly the bytes it declares, and writes for float sources. |
| FilledRegions.ConcatFills | compatmigrate/tensor_ops.go:54-89 | A concatenation writes exactly the bytes it declares, and writes for float sources. |
| FilledRegions.ConcatKindFills | compatmigrate/tensor_ops.go:131-162 | A concatenation in a given type writes exactly the bytes it declares, and writes if the sources decode and the type can be encoded. |
| FilledRegions.StackFills | compatmigrate/tensor_ops.go:164-203 | A stack, copied or encoded, writes exactly the bytes it declares, and writes for float sources. |
| FilledRegions.KVFills | compatmigrate/glm47_flash.go:199-241 | K and V write exactly the bytes they declare; float sources are written exactly if the heads fit. |
| FilledRegions.PixtralFills | compatmigrate/mistral_pixtral.go:151-179 | Pixtral's projector tensors write exactly the bytes they declare; float q/k tensors are written exactly if they divide. |
| FilledRegions.PatchFills | compatmigrate/qwen3vl.go:209-280 | Each frame of a patch tensor writes exactly the bytes it declares, and writes for float sources. |
| FilledRegions.SlowConcatFills | compatmigrate/tensor_ops.go:91-129 | Stored float bytes joined never exceed what is declared, and fill it exactly if no source was promoted. |
| FilledRegions.SlowConcatOfKind | compatmigrate/tensor_ops.go:91-129 | Sources of the declared type, of any type, fill what is declared. |
| FilledRegions.PromotedSlowConcatFallsShort | compatmigrate/tensor_ops.go:103-128 | Two F16 values joined under a name that must be F32: eight bytes declared, four written. |
| FilledRegions.StoredDecodes | compatmigrate/tensor_ops.go:254-269 | Stored bytes of one type, back to back, decode to the sources' values one after the other. |
| FilledRegions.RowFills | compatmigrate/tensor_row.go:38-80 | A row that is written fills the one-dimensional F32 region it declares. |
| FilledRegions.RowIsTensors | compatmigrate/tensor_row.go:30-80 | Any row of an intact tensor of a type that decodes is written, and holds that row of the tensor decoded whole. |
| MigratedFile.WriteMigrated | compatmigrate/writer.go:86-149 | A header that fits the format is found by a reader of the specification: every key under its name with its value, every tensor in layer order with its name, dimensions, type and offset. With outputs that fill their regions, the file is that header and aligned, disjoint regions filled to the byte, with gaps below the alignment. |
| Repackers.MistralPixtralVisionQKRepack | compatmigrate/mistral_pixtral.go:186-214 | The nested loops are the permutation (0,2,1,3) of [heads, 2, inner, rows]; shapes that do not divide are refused. |
| PatchRepackers.Qwen3VLSplitPatch | compatmigrate/qwen3vl.go:209-280 | The four nested loops fill each half from its own plane; incomplete data is refused. |
| PatchRepackers.PatchIsSlice | compatmigrate/qwen3vl.go:225-277 | Each half is a slice of the patch tensor seen as [flat, 2, H, W]. |
| PatchRepackers.PatchHalvesRebuild | compatmigrate/qwen3vl.go:225-277 | The two halves concatenate back to the patch tensor. |
| PatchRepackers.ReshapeNemotron3PatchEmbedding | compatmigrate/nemotron3.go:401-434 | Tensors of every rank come out with their data unchanged; a rank-2 patch tensor is refused exactly when its length is not that of its patches. |
| PatchRepackers.NormalizeNemotron3PositionEmbedding | compatmigrate/nemotron3.go:353-373 | Data stored by embedding comes out by position, and data stored by position is kept. |
| GlmRepacker.RepackKVB | compatmigrate/glm47_flash.go:243-269 | K and V are the slice and permutation of kv_b their layout calls for, in both storage orders. |
| GlmRepacker.SplitKVB | compatmigrate/glm47_flash.go:199-241 | Accepts exactly splittable tensors and declares the two shapes. |
| GlmRepacker.HeadsRebuild | compatmigrate/glm47_flash.go:243-269 | K and V of a head concatenate back to that head of kv_b. |
| GlmRepacker.SourceRebuild | compatmigrate/glm47_flash.go:243-269 | K and V together rebuild kv_b. |
| GlmRepacker.DeclaredShapesFilled | compatmigrate/glm47_flash.go:199-241 | Both outputs have exactly as many elements as they declare. |
| WordBits.WordBitIsByteBit | compatmigrate/tensor_row.go:132-156 | Bit 8i+k of the little-endian word is bit k of byte i. |
| RowDecoders.ScaleMinK4 | compatmigrate/tensor_row.go:200-205 | The bit operations give the j-th 6-bit scale and minimum. |
| PackedBlocks.UnpackPack | compatmigrate/tensor_row.go:200-205 | Unpacking 12 packed bytes gives all eight scales and minimums back. |
| PackedBlocks.PackedRow | compatmigrate/tensor_row.go:112-247 | A row packed from any number of blocks holds, at each element, the value that block stands for: for Q4_K, d times its scale times its number less dmin times its minimum. |
| PackedBlocks.EveryRow | compatmigrate/tensor_row.go:112-247 | Every row of whole blocks is packed from some blocks, so packed rows are all rows. |
| RowDecoders.DecodeQ8_0Row | compatmigrate/tensor_row.go:112-130 | Any number of blocks decodes to the per-element closed form, and a row packed from blocks to the values they stand for; other lengths are refused. |
| RowDecoders.DecodeQ5_0Row | compatmigrate/tensor_row.go:132-156 | The two-halves loop equals the closed form per element, with its high bit from the block's word; a row packed from blocks decodes to the values they stand for. |
| RowDecoders.DecodeQ4KRow | compatmigrate/tensor_row.go:158-198 | The running offsets of four groups equal the closed form per element; a row packed from scales, minimums and numbers decodes to d·scale·number − dmin·minimum. |
| RowDecoders.DecodeQ6KRow | compatmigrate/tensor_row.go:207-247 | The interleaved halves equal the closed form per element, with signed scales; a row packed from blocks decodes to the values they stand for. |
| RowReader.DecodeFloatTensor | compatmigrate/source_tensor.go:265-290 | The whole values in the bytes, each from its own bytes; bytes left over are ignored. |
| RowReader.DecodeTensorRow | compatmigrate/tensor_row.go:88-110 | A float row decodes to its whole values exactly if their number is right, a packed row exactly if it is whole blocks of the right length; either way element by element. |
| RowReader.DecodeTensorData | compatmigrate/tensor_ops.go:341-379 | Float data of any shape and packed data of whole rows decode to the closed form; everything else is refused. |
| RowReader.RowIsSlice | compatmigrate/tensor_ops.go:341-379 | A row decoded alone is that row of the tensor decoded whole. |
| RowReader.ReadRow | compatmigrate/tensor_row.go:46-80 | Reads exactly the row's bytes behind the tensor's offset. |
| RowReader.RowByOffset | compatmigrate/tensor_row.go:46-80 | Reading a row by offset equals that row of the full decode. |
| GgufRoundTrip.ValueRoundTrip | compatmigrate/writer.go:183-220 | Every supported value reads back as what it means, whatever follows it. |
| GgufRoundTrip.InfoRoundTrip | compatmigrate/writer.go:223-247 | A tensor info reads back unchanged. |
| GgufRoundTrip.HeaderRoundTrip | compatmigrate/writer.go:92-134 | Metadata and tensor infos read back in order, whatever data follows. |
| GgufRoundTrip.HeaderStarts | compatmigrate/writer.go:92-106 | A header is the letters GGUF, version 3, and the two counts in eight bytes each. |
| StableSort.SortedKeys | compatmigrate/writer.go:27-31 | The keys in strictly increasing order, each once. |
| StableSort.IncreasingUnique | compatmigrate/writer.go:27-31 | There is only one increasing list of a set of keys. |
| StableSort.SortSorts | compatmigrate/writer.go:114-122 | The sort orders by layer and name and rearranges. |
| StableSort.SortStable | compatmigrate/writer.go:114-122 | Tensors that tie keep their order. |
| StableSort.LexMeans | compatmigrate/writer.go:27-31 | The byte order: the first byte that differs decides, and a prefix comes first. |
| GgufWriter.SortedByLayer | compatmigrate/writer.go:114-122 | The sorted tensors are the tensors given, by layer and then name, those of one name in the order given. |
| GgufWriter.SettingsRead | compatmigrate/writer.go:86-104 | Architecture and alignment are read from their own keys; the alignment is 32 without one. |
| GgufWriter.RegionsDisjoint | compatmigrate/writer.go:126-134 | Regions are aligned, in order and disjoint, with gaps smaller than the alignment. |
| GgufWriter.SizeIsWholeBlocks | compatmigrate/writer.go:75-83 | The size is whole blocks exactly when the elements are. |
| GgufWriter.PartialBlockCutShort | compatmigrate/writer.go:75-83 | A tensor whose only block is cut short. |
| GgufWriter.OverwriteReads | compatmigrate/writer.go:142-146 | An offset write is read back and leaves other ranges alone. |
| GgufWriter.WriteKV | compatmigrate/writer.go:167-221 | Writes the qualified key and the value's encoding, or fails exactly on an unsupported value. |
| GgufWriter.WriteTensorInfo | compatmigrate/writer.go:223-247 | Appends the info's encoding and nothing else. |
| GgufWriter.WriteMetadata | compatmigrate/writer.go:108-112 | Writes all pairs in order, or stops exactly when one is unsupported. |
| GgufWriter.WriteInfos | compatmigrate/writer.go:126-134 | Assigns the aligned offsets and writes the infos that carry them. |
| GgufWriter.WriteData | compatmigrate/writer.go:136-146 | Every payload ends up at its own offset and the header stays. |
| GgufWriter.WriteGGUF | compatmigrate/writer.go:86-149 | The file is the header for the sorted metadata and sorted, placed tensors, followed by every payload at its place; it fails exactly without an architecture or on an unsupported value. |
| GgufWriter.OffsetsPlace | compatmigrate/writer.go:126-134 | The written offsets place every tensor exactly when no payload outgrows its declared size. |
| GgufWriter.WrittenParses | compatmigrate/writer.go:86-149 | A reader of the specification finds the sorted infos, and every key with the meaning of its value: under its own name if it starts with "general.", "adapter.", "tokenizer." or the architecture and a dot, and otherwise behind the architecture and a dot. |
| GgufWriter.QualifyCollides | compatmigrate/writer.go:167-173 | Two keys are written alike exactly when one is the other with the architecture's prefix. |
| FloatPayload.EncodeFloatTensor | compatmigrate/source_tensor.go:292-311 | F32, F16 and BF16 are encoded, other kinds refused. |
| FloatPayload.EncodedAt | compatmigrate/source_tensor.go:292-311 | Each value's bit pattern is little endian at its own place. |
| FloatPayload.FloatsFillRegion | compatmigrate/source_tensor.go:292-311 | Encoded floats fill a region exactly if they are as many as its shape declares. |
| Text.TrimSpaceSplits | agent/compactor.go:641-646 | A text is its trimmed middle between runs of spaces. |
| Text.TrimSpaceOf | agent/compactor.go:641-646 | Only one trimmed middle splits a text like that. |
| Text.DecimalLength | agent/session.go:1059-1074 | A number prints in at most d digits exactly when it is below ten to the d. |
| ToolBudget.MarkerFits | agent/session.go:1059-1074 | For texts below 10^77 runes the marker costs at least one token less than the reserve of 64. |
| ToolBudget.CutContentFits | agent/session.go:879-908 | Content cut to 4k runes costs less than k tokens and the reserve. |
| ToolBudget.BudgetKept | agent/session.go:879-908 | Under a positive budget, a tool message stays below it or is fully omitted. |
| ToolBudget.BudgetIsSized | agent/session.go:874-912 | The sized message is exactly the one that keeps 3200, 6000 or 60000 runes by the size of the context, or, where that does not fit, the most that leave 64 tokens of the budget. |
| AgentMessages.PairedConcat | agent/session.go:240-330 | Appending to a well-paired history is well paired exactly when what is appended is. |
| AgentMessages.PairedSplit | agent/compactor.go:579-587 | Cutting before a message that neither calls nor answers leaves both sides well paired. |
| AgentMessages.UnansweredNotPaired | agent/session.go:263-299 | A history that ends in open calls is not well paired. |
| Text.TokensOfText | agent/compactor.go:359-365 | Spaces around a text cost nothing, the rest one token for every four runes or part of four. |
| AgentMessages.TokensAddUp | agent/compactor.go:367-381 | A message costs its role and, once each, every text that is filled in and every call. |
| Compaction.ContentIsSummary | agent/compactor.go:306-312 | Stored summary content is recognised as a summary, even an empty one. |
| Compaction.SummaryTextReads | agent/compactor.go:641-646 | The summary reads back exactly if it was stored with the instruction or does not end with it. |
| Compaction.PairIsRecognised | agent/compactor.go:317-335 | The stored pair is well paired and recognised as call and summary. |
| Compaction.SummariesByRole | agent/compactor.go:590-597 | Summary content marks a message as a compaction exactly if the user, the system or the tool named summary says it. |
| Compaction.TruncatedSummaryTrimmed | agent/compactor.go:352-357 | Cutting a trimmed summary leaves it trimmed and does not empty it. |
| CompactionSplit.CollectCandidates | agent/compactor.go:548-563 | The loop drops exactly summaries and summary calls and remembers the last summary. |
| CompactionSplit.UserTurnIndexes | agent/compactor.go:565-570 | Index j is the (j+1)-th user message from the end. |
| CompactionSplit.SplitCompactionMessages | agent/compactor.go:537-588 | It succeeds exactly when anything is left; archive and suffix are what is left, and the suffix is empty or starts with a user message and holds the turns asked for, three if that is negative, but never all of them. |
| CompactionSplit.SplitUnique | agent/compactor.go:537-588 | History and number of turns determine the split. |
| CompactionSplit.Resplit | agent/compactor.go:134-141 | Splitting a compacted history finds the prefix, the suffix and, exactly when it reads back, the summary. |
| CompactionPairing.KeptIsPaired | agent/compactor.go:548-563 | Dropping earlier compactions from any stretch of history keeps it well paired exactly when every summary call in it was answered by summaries. |
| CompactionPairing.CallGroupKept | agent/compactor.go:548-563 | A call and its answers are kept whole or dropped whole, except for summary calls answered otherwise. |
| CompactionSurvival.CompactionSurvives | agent/compactor.go:134-141 | A compacted history is well paired exactly when, from the first kept turn on, every summary call was answered by summaries. |
| CompactionSurvival.SuffixFromTurn | agent/compactor.go:565-587 | The suffix is what is left of the history from the first kept user turn on. |
| CompactionSurvival.BatchNamesApart | agent/session.go:543-627 | Answers under names of the batch keep the summary's name apart from other calls. |
| CompactionSurvival.RealSummaryCallUnpaired | agent/compactor.go:626-636 | A real call of a tool named summary in the last turn: the compacted history keeps its answer without the call. |
| Compactor.SimpleCompactor.MaybeCompact | agent/compactor.go:90-142 | What a request comes to in every case: nothing when it is not due, without a client or anything to archive, with the reason; an error with the model's; and otherwise prefix, summary pair and suffix of the split, with the first summary that is not empty, of at most two. |
| RunHistory.CompactedGood | agent/compactor.go:134-141 | A compacted history is still well paired and free of stray summaries; keeping no turns keeps no suffix. |
| RunHistory.GoodKept | agent/compactor.go:548-563 | The candidates of a good history are a good history. |
| RunHistory.SanitizeGood | agent/session.go:974-990 | Cutting tool results keeps a history good. |
| RunHistory.SanitizeCuts | agent/session.go:974-990 | Only tool results of more than 60000 runes change, to their first 45000 and last 15000 around the marker. |
| SessionState.Session.Emit | agent/events.go:154-168 | Every event is recorded once, whether or not a sink fails. |
| SessionState.Session.EmitIgnoringCanceled | agent/events.go:170-177 | A failure is reported only while the context is not canceled. |
| ToolBatch.SkipToolCalls | agent/session.go:650-663 | Every call is answered in order, with one skipped event each. |
| ToolBatch.DisabledToolCalls | agent/session.go:630-648 | Every call is answered in order with the disabled message, sized to the budget. |
| ToolBatch.DenyToolCalls | agent/session.go:524-540 | Every call is answered in order with the reason, sized to the budget. |
| ToolBatch.RunCall | agent/session.go:556-616 | Unknown tools, failures and successes all become one sized answer with its events; it says what the tool returned right after the started event. |
| ToolBatch.RunCalls | agent/session.go:543-627 | However the loop ends, all calls are answered: a first part run, the rest skipped. |
| ToolBatch.ExecuteToolCalls | agent/session.go:472-628 | On every exit without an error, answer i answers call i, there are as many answers as calls, and the events are theirs in order. What ran says what its tool returned; a batch that needs approval runs only if allowed, and a refusal is told to every call; a batch is cut short only by cancellation. |
| ToolBatch.BatchKeepsBudget | agent/session.go:543-627 | After each call that ran, history and batch are below the threshold or the answer is fully omitted and recorded. |
| ToolBatch.FittedKeepsBudget | agent/session.go:879-912 | The running total of sized answers keeps to the threshold. |
| ToolBatch.OmittedIsRecorded | agent/session.go:609-613 | A fully omitted answer is recorded with its full text. |
| ToolBatch.OverflowNames | agent/session.go:560-613 | Only tools of the batch are recorded. |
| ToolBatch.EachCallFinishes | agent/session.go:472-628 | The finished events are those of the calls, each once and in order, with the status that says what became of the call. |
| ToolBatch.StartedWhenRun | agent/session.go:543-627 | A finished event follows a started event of its own call exactly when the tool ran. |
| AgentRun.ChatRound | agent/session.go:387-441 | A finished request gives the message its chunks add up to, announced chunk by chunk. |
| AgentRun.ReplyAsHeard | agent/session.go:387-441 | The message that goes into the history is the one the listeners were told of piece by piece. |
| AgentRun.RunModelStep | agent/session.go:240-317 | Keeps the run's invariant; retries exactly server errors, twice in a row at most; leads where the reply's calls and the run's settings say. |
| AgentRun.CloseOrRun | agent/session.go:273-316 | Canceled, disabled and limited calls are answered at once; otherwise they are run or, without a registry, left open. |
| AgentRun.RunToolStep | agent/session.go:319-330 | The finished batch follows its calls, and the history is well paired again. |
| AgentRun.MaybeCompact | agent/session.go:716-751 | The history is what the compactor makes of it and stays well paired; what is announced, and whether it is still too large, in every case. |
| AgentRun.CompactForToolOutputOverflow | agent/session.go:753-811 | After overflow compaction the round that overflowed follows the summary and stays well paired. Each answer is sized again, to the room left in the window, from what the last omitted answer with its ID would have said, under that call's name; and otherwise from what it said. |
| AgentRun.OverflowIsLast | agent/session.go:780-783 | Under an ID the map of overflows holds the last answer that was fully omitted. |
| AgentRun.OmittedSaidAgain | agent/session.go:780-805 | With distinct IDs, an answer a finished batch omitted says what its own call came to: whole if it is short enough and there is room, and otherwise cut. |
| AgentRun.RefitKeepsBudget | agent/session.go:790-804 | Each answer sized again stays below the context window or is fully omitted. |
| AgentRun.RefitAnswers | agent/session.go:780-804 | Answers sized again still answer the same calls. |
| AgentRun.RunCompactionStep | agent/session.go:332-369 | Keeps the invariant, compacts as the batch's overflows say, and leads to an error, an end or the next round as the batch's outcome says, with the events of each. |
| AgentRun.DoneIsPaired | agent/session.go:371-385 | A run's last history is well paired exactly unless calls were left open without a registry. |
| AgentRun.RunLimited | agent/session.go:186-203 | Under a limit M with tools on the run terminates, within M tool batches and 3(M+1) chat requests, even when it fails. |
| AgentRun.RunSteps | agent/session.go:186-203 | After any number of steps of any run the history is well paired, up to calls being run. |
| AgentRun.BuildRunMessages | agent/session.go:223-238 | The history and the new messages in order, only long tool results cut. |
| AgentRun.ActivateSkill | agent/skill_activation.go:12-58 | A skill goes in as an answered call with the events of a tool that ran. |
| AgentRun.StartRun | agent/session.go:154-185 | A run starts in a state that keeps the invariant, with a history below the window and the limit asked for, 100 by default. |
| AgentRun.FinishRun | agent/session.go:371-385 | Hands back the last history, well paired with a registry, after announcing the outcome. |
| AgentRun.Run | agent/session.go:154-204 | A limited run from a well-paired history hands back a well-paired one within the bounds. |
| AnthropicStream.ToMessagesResponse | anthropic/anthropic.go:686-723 | The one-shot blocks: thinking, text, then one block per call in order. The stop reason is "tool_use" with calls; without, "end_turn" for "stop", "max_tokens" for "length", none for none and "stop_sequence" for any other. The usage accounts for every token. |
| AnthropicStream.UsageAccounts | anthropic/anthropic.go:227-248 | Uncached and cached tokens add up to the prompt; the cached ones are reported if they were counted. |
| AnthropicStream.StreamConverter.Process | anthropic/anthropic.go:777-1014 | Fields and events after a chunk are those of the specified step. |
| StreamConversion.ConvertAll | anthropic/anthropic.go:777-1014 | A converter fed any stream emits a grammatical one that carries all text, a prefix of the thinking and each call once, and is the one-shot response exactly when the chunks came in order with distinct IDs. It opens with the prompt's usage or the estimate, and closes with the stop reason the words of the reply call for. |
| StreamGrammar.StreamAccepted | anthropic/anthropic.go:777-1014 | Every stream is one message start, blocks 0, 1, 2, ... each started, filled with deltas of its kind and stopped, then message delta and message stop. |
| StreamGrammar.StepLeads | anthropic/anthropic.go:777-1014 | Every chunk's events lead from the acceptor's place to the place the fields say, and text and thinking are never open at once. |
| StreamContent.StreamSends | anthropic/anthropic.go:810-963 | All text is sent in order, thinking sent is a prefix of all thinking, each tool ID is sent at most once, and exactly those of calls that marshal. |
| StreamRefinement.StreamRefinesOneShot | anthropic/anthropic.go:686-1014 | However the response was chunked, the folded blocks are the one-shot blocks exactly when thinking came before text before calls and no call ID was repeated. |
| StreamRefinement.StreamEndsAsOneShot | anthropic/anthropic.go:965-1011 | The closing events carry the one-shot stop reason and usage. |
| StreamRefinement.ThinkingKeeps | anthropic/anthropic.go:810-849 | Thinking agrees with the one-shot form exactly if nothing else was said before it; otherwise it is lost or late for good. |
| StreamRefinement.TextKeeps | anthropic/anthropic.go:851-890 | Text agrees exactly if no tool was called before it. |
| StreamRefinement.ToolKeeps | anthropic/anthropic.go:892-963 | A call agrees exactly if its ID is new. |
| ExpertNames.ParsesExactly | create/plan.go:247-271 | A name parses as expert i of a projection exactly when it is that expert's weight name; signs and leading zeros are refused. |
| ExpertNames.NamesDistinct | create/plan.go:247-271 | Different experts have different names. |
| ExpertNames.GroupedExactly | create/plan.go:295-318 | Exactly the names that go on with an integer after their own group belong to it. |
| ExpertNames.ExpertsGrouped | create/plan.go:295-318 | The weights of a group's experts belong to the group. |
| ExpertPrefixes.GroupPrefixExactly | create/create.go:244-277 | A weight has the group of a layer and a marker exactly if its name goes on after them with a dot. |
| ExpertPrefixes.LayerExperts | create/create.go:244-277 | In every layer and under every marker, the experts named there belong to that group. |
| ExpertGroups.CollectExperts | create/plan.go:177-190 | Accepts exactly tensors that name experts of the group (with scales where needed), and places each where its name says. |
| ExpertGroups.NoOtherIndex | create/plan.go:278-284 | If 0 to n-1 are all present among n indices, there are no others. |
| ExpertGroups.ValidateExpertProjections | create/plan.go:273-294 | Accepts exactly grids whose projections all cover one range 0..n-1. |
| ExpertStacks.StackProjection | create/plan.go:197-224 | Succeeds exactly when all layouts agree, with the weights and then the scales in index order. |
| ExpertStacks.HomogeneousExpertBlobs | create/plan.go:228-245 | One blob if all tensors are quantized alike, otherwise a blob each. |
| ExpertStacks.BlobsOf | create/plan.go:228-245 | Either way the same sources are used, every blob has one quantization and can be written. |
| ExpertPlanner.PlanExpertGroup | create/plan.go:172-226 | Accepts exactly groups whose projections have the same contiguous experts, alike within a projection; each tensor then has exactly one slot, slot i being expert i, quantized as asked. |
| ExpertPlanner.CompleteGrid | create/plan.go:273-294 | Counting the collected grid says exactly whether the tensors' names cover 0..n-1 in every projection. |
| ExpertStacks.OneProjection | create/blockfp8.go:89-158 | A weight or scale belongs to one projection only. |
| PlanSources.SplitNames | create/plan.go:138-147 | Every tensor is either in the group its name says or outside all groups. |
| PlanSources.PlanGroups | create/plan.go:162-168 | Succeeds exactly if every group can be stacked; the blobs then use exactly the grouped tensors, and their scales, once each. |
| PlanSources.PlanFloat | create/plan.go:135-170 | Accepts exactly sources whose groups can be stacked; every tensor is used exactly once. Told by names: a name that goes on with an integer after its group is an expert's and is in its slot of its projection's stack, and every other tensor is copied alone; each quantized as the policy says, if quantization is asked for. |
| PlanSources.FloatPlaced | create/plan.go:135-170 | Each accepted float plan puts every tensor where its name says. |
| BlockFP8Plan.WeightOwns | create/blockfp8.go:160-180 | A weight's scale companion is no weight and belongs to no other weight. |
| BlockFP8Plan.ConsumedScales | create/blockfp8.go:15-24 | The folded tensors are exactly the chosen scales of FP8 weights. |
| BlockFP8Plan.PlanBlockFP8 | create/blockfp8.go:9-87 | Accepts exactly sources whose groups can be stacked; every tensor is used exactly once. Told by names and types: an FP8 weight is decoded with its scale, the inverse one if there is one, alone or in its slot of a stack; every other tensor keeps its precision, stacked or copied. |
| BlockFP8Plan.FP8Placed | create/blockfp8.go:9-87 | Each accepted block-FP8 plan puts every tensor where its name and type say. |
| PrequantPlan.MatchPrequant | create/prequant.go:104-168 | A weight matches exactly the first row whose suffix and scale are there, with its fused blob and all it consumes. |
| PrequantPlan.UsedFacts | create/prequant.go:40-69 | Companions are never weights or activation scales. |
| PrequantPlan.SharedSource | create/prequant.go:75-102 | Two specs that share a source are two packings of one weight, which normalise to one name. |
| PrequantPlan.FusedCovers | create/prequant.go:119-165 | A fused blob uses the weight and its companions once each and can be written byte by byte. |
| PrequantPlan.PlanPrequantized | create/prequant.go:71-102 | Every blob is a fused weight or the copy of a tensor no weight consumes; without clashing names every tensor is used exactly once, except exactly the activation scales of fused weights. |
| PrequantPlaces.FusedPlaced | create/prequant.go:44-168 | Told by names and types: MLX, compressed-tensors and ModelOpt weights are in one blob with their scales, transformed and labelled as their producer needs; every tensor that goes with none is copied alone. |
| Planner.CheckOutputCollisions | create/plan.go:113-133 | Accepts exactly plans in which all blob names and all tensor names differ. |
| Planner.Plan | create/plan.go:84-111 | A plan is returned exactly if the groups can be stacked and no two planned outputs clash; it can be written, uses each wanted tensor exactly once and nothing else, and puts each where its name, type and shape say. |
| BlobWriter.StackExpertTensors | create/transform.go:57-74 | The stacked bytes are the sources' bytes back to back; empty and mixed lists are refused. |
| BlobWriter.BlockOfStack | create/transform.go:57-74 | Block i of the stacked bytes is source i. |
| ModelImport.SlotHoldsExpert | create/plan.go:196-223 | Block i of a stack's weights is the source's tensor whose name carries i, in plain and FP8 stacks. |
| ModelImport.SlotHoldsScale | create/blockfp8.go:111-151 | Block i of an FP8 stack's scales is expert i's own scale. |
| ModelImport.StackWritten | create/writer.go:145-162 | What is written for a planned stack holds expert i in slot i, and for FP8 its scale in slot i beside it. |
| ModelImport.ImportModel | create/writer.go:51-126 | Planning and writing: refused exactly with the plan or for a bad scale, every tensor planned where its name says, every written tensor made of its sources' bytes, and every stacked tensor with its experts in place. |
| BlobWriter.ApplyByteTransform | create/transform.go:11-55 | It blames the plan exactly for transforms or sources no byte transform takes and the data exactly for a bad scale; the output is the bytes its transform stands for. |
| BlobWriter.QuantizeInputReader | create/writer.go:128-169 | It accepts exactly the sources its transform takes, and hands over the tensor, the weight and its scale, or the stacks of both. |
| BlobWriter.WriteBlob | create/writer.go:71-126 | A planned blob is refused exactly for a bad scale; every tensor in it is made of the bytes of its sources, or handed to the quantizer with them. |
| BlobWriter.ScanQuantization | create/quantize.go:51-68 | The scan reports a mixture exactly when a tensor after a quantized one differs from it. |
| BlobWriter.PlannedNotMixed | create/quantize.go:51-68 | Blobs of an accepted plan are never mixed. |
| BlobWriter.ScanOrderMatters | create/quantize.go:51-68 | The same two tensors are mixed in one order and not in the other. |
| BlobWriter.RepackKeepsSize | create/prequant.go:124-129 | The repacked shape describes the same bytes exactly when a row is whole words. |

## Helper facts

Facts the rows above rest on that need little or no proof: `Text.TokensCover` (the estimate is the least number of four-rune
tokens that covers a text), `ToolBudget.SmallOutputWhole` (output that fits is passed on whole), `RunHistory.SanitizeSummary`
(cutting a tool result does not change whether it is a summary), `PatchRepackers.CompletePatchReachable` (complete patch data is accepted for every shape),
`PackedBlocks.PackUnpack` (every 12 bytes are the packing of what they unpack to), `GgufWriter.ShortBlocks`, `KBlocks` and `IBlocks`
(the bytes of a block are those of its parts) and `ToolBudget.TruncateKeepsEnds` (truncated text
is exactly the rune budget from the two ends, around the marker).

## Left out

- Rounding: conversions of half, brain and single floats, products of scales, and the bilinear downsampling of position embeddings.
- Machine overflow of integer casts, and the floating-point product in `outTensor.size`; sizes are exact integers per block.
- The memory estimates with their saturating arithmetic, I/O errors of readers and files, and source files that end before a
  tensor's bytes do. The 64-bit overflow checks of tensor sizes.
- Outputs filled with values made in memory (`f32Tensor`, a row of ones).
- Two list entries that point to one tensor: the list of tensors to write is an array of values. `fmt.Sscanf` in `block` is a
  parameter, and the library's stable sort is modelled as an insertion sort.
- The table of tensors that must be F32 and the names of Pixtral's q/k and patch tensors are parameters; renaming tables, detection
  of architectures and `copyTensorPrefix` are not modelled.
- `Accept`, `Fold` and the other functions of `StreamGrammar` and `StreamRefinement` describe a client; no client code is modelled.
- JSON marshalling, request building, and the choice of images and options in chat requests; roles other than assistant in replies.
- Deciding when compaction is due, which a request's own parameter says, the rendering of the compaction prompt,
  `fitCompactionMessagesToBudget`, and the second attempts of a second summary when a model cannot be told not to think.
- Working directories, the approval state behind an approval, and runes that stand for invalid UTF-8.
- The order of blobs in a plan: keys are enumerated in some order, each once.
- MLX quantization and FP8 decoding, safetensors reading and the blob store.
- AgentRun.RunSteps: does not bound runs without a limit or with tools disabled, because the code does not bound them either.
- GgufWriter.WriteGGUF: says nothing of the bytes between regions, and nothing of a file left behind by a failure.
- AgentRun.ChatRound: does not say which events a failed or canceled request leaves behind.
- RowReader.DecodeTensorRow: takes the types the code decodes; other types are refused before it, in `SourceTensors.ReadFloats`.
