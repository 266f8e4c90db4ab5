# rapid-map memory mapper, modelled in Dafny

rapid-map maps the logical memories of FPGA circuits onto physical RAM resources. There are three
kinds of resource:

- LUTRAM, which is logic blocks configured as 64×10 or 32×20 RAM;
- an 8K-class block RAM;
- a 128K-class block RAM.

The core modelled here is in `src/main.rs`:

- **Overhead.** `decoder_luts` and `mux_luts` give the extra LUTs that a chain of blocks in series
  needs: an address decoder and a 4:1 read-mux tree.
- **Enumerator.** `best_mapping_for_phys_type` handles one memory on one resource kind:
  - it rejects a memory that the kind cannot serve (true dual port without a TDP mode, or no usable
    port width);
  - it tries the candidate physical widths (10 and 20 for LUTRAM, powers of two for block RAM);
  - it derives each candidate's depth and its series × parallel chain, limited to 16 in series;
  - it keeps the cheapest candidate. Ties keep the earliest width.
- **Chooser.** `choose_mapping_for_memory` runs the enumerator on every enabled kind, in the order
  LUTRAM, 8K, 128K, and keeps the strictly cheapest result. When no enabled kind can realise the
  memory, it stops the run with a "no legal mapping" error.
- **Driver.** `assign_ram` builds the two block-RAM configurations from the run's options. Their TDP
  width is half the maximum width, truncated. It then maps every memory of every circuit in order
  with a running group id and totals the extra LUTs and each kind's blocks. Finally it calls the
  sharing pass.
- **Sharing.** `apply_sharing` and `share_type` do the following for each block-RAM kind present:
  - collect candidates: single-block, single-port or ROM, non-empty, under-full mappings of that
    kind, no wider than the kind's TDP width when that width is positive;
  - greedily merge pairs of the same circuit with an identical physical shape whose combined depth
    fits the chain and whose bits, together with the driving outer candidate's, fill the block.
    Each such pair becomes one true-dual-port block;
  - give the second mapping of a pair the first one's group id;
  - subtract one block per merge.
  As a result, two final mappings share a group id exactly when a pass merged them, and the two
  then share one block (`SharingProps.GroupIdsIdentifyMerges`, `DriverProps.AssignRamGroupsAreMerges`).

The model's modules follow that structure:

- `Arith`: Rust's truncating `/` and `%`, and the engine's ceiling division.
- `RamTypes`: the data, and `PHYS_LUTRAM`.
- `Overhead`.
- `Selection`: the strict-`<` first-minimum rule shared by the enumerator and the chooser.
- `Enumerator`.
- `Chooser`.
- `Sharing` and `SharingProps`.
- `Driver` and `DriverProps`.

Each loop of the source is a Dafny method proved equal to a specification function. The properties
are proved about those functions.

- **Sharing pass.** `share_type` works in place on an `array<RamMapping>`. Its triple loop is
  specified by the recursive functions `Outer`, `Middle` and `Inner`, which act on a state made of:
  - the mappings;
  - the already-shared flags;
  - the block total;
  - a log of merges, each recording its two sides and the outer candidate that drove the test.
- **Failure.** The panic for an unmappable memory is an `Err(NoLegalMapping(ramId, circuitId))`
  result, and the first failing memory's error ends the run.
- **Cost.** The floating-point area cost is a parameter of type `(RamMapping, PhysConfig) -> real`.
  Every selection property holds for every cost function.

In three places the code departs from what the design intends; the model follows the code:

- **The exact-fill test.** In `share_type`, the middle loop rebinds `i` and `idx_i` but not
  `bits_i`, so the test on line 209 adds the bits of the OUTER loop's candidate to `j`'s.
  - A merged pair therefore need not fill the block exactly, although the pass is meant to pair
    two memories whose bits together fill one block.
  - The model keeps this behaviour.
  - `SharingProps.ExactFillUsesDriverBits` exhibits a merge of 800 + 4096 bits in an 8192-bit
    block.
  - `SharingProps.MergeOK` states what does hold: the driver's bits plus the right side's bits fill
    the block.
  - `DriverProps.AssignRamMergesFitBlock` states what still holds for the pair itself in a run: the
    two merged memories never hold more than one block's bits.
- **Wide memories.** A memory wider than every enabled kind's widest port might be expected to be
  unmappable and abort the run. The code instead splits the memory over parallel blocks, and the number in
  parallel is not bounded. `Enumerator.BlockRamWidthUnbounded` and `Chooser.WideMemoryMaps` show
  that a 200-bit-wide memory maps onto a 128K block RAM whose widest port is 128.
- **True dual port without a TDP mode.** A true-dual-port mapping is meant to appear only on a kind
  whose true-dual-port width is positive. With a widest 8K port of 1 bit, the 8K kind's TDP width
  is `1 / 2 == 0`. The candidate filter then skips its width cap (src/main.rs:157), and the pass
  still makes merged mappings true dual port. `DriverProps.TdpMergeWithoutTdpMode` exhibits this.

## Model

| member | source | states |
|---|---|---|
| Arith.QuotRem | src/main.rs:460-468 | Rust's truncating quotient and remainder recompose the dividend; the remainder has the dividend's sign and is smaller than the divisor |
| Arith.CeilQuotCovers | src/main.rs:460-468 | the `q = a / b; if a % b != 0 { q += 1 }` count is the true ceiling for a positive demand: it covers the demand and one fewer does not; zero demand gives zero |
| Overhead.DecoderLuts | src/main.rs:346-354 | the decoder LUT count as a function of the chain length (no contract; its properties are in `DecoderLutsRange`) |
| Overhead.ExtraLuts | src/main.rs:476-480 | decoder plus mux LUTs, doubled for a true-dual-port chain (no contract; closed form in `ExtraLutsClosedForm`) |
| Overhead.DecoderLutsRange | src/main.rs:346-354 | the decoder is free exactly for a chain of at most one block, costs 1 LUT for two and `s` LUTs for three or more |
| Overhead.MuxLuts | src/main.rs:356-369 | the reduction loop computes `width` times the number of 4:1 nodes of the mux tree, and 0 for at most one block |
| Overhead.MuxTreeNodesRange | src/main.rs:360-366 | a tree over `n >= 2` inputs has between 1 and `n - 1` nodes |
| Overhead.MuxTreeNodesUpTo16 | src/main.rs:360-366 | for chains of 2 to 16 blocks the tree has one level up to 4 inputs, else `ceil(n/4) + 1` nodes |
| Overhead.ExtraLutsClosedForm | src/main.rs:473-480 | extra LUTs of an allowed chain: none for one block, otherwise decoder plus `width` LUTs per mux node, doubled for true dual port |
| Selection.FirstMinNone | src/main.rs:500-510 | the strict-`<` keep-the-best loop yields nothing exactly when every candidate is absent |
| Selection.FirstMinIsEarliestMinimum | src/main.rs:500-510 | the kept result is a present candidate no other undercuts, and every earlier candidate is strictly dearer (ties keep the first) |
| Enumerator.PowersFrom | src/main.rs:425-431 | the doubling loop's widths lie between the start and the cap |
| Enumerator.WidthCandidatesArePowersOfTwo | src/main.rs:422-433 | block-RAM widths are exactly 1, 2, 4, ... in order, up to and not beyond the port cap |
| Enumerator.PowersFromPow2 | src/main.rs:425-431 | the doubling loop from `2^i` yields `2^i, 2^(i+1), ...` and stops at the first power above the cap |
| Enumerator.CandidateAt | src/main.rs:437-496 | the candidate for one width, or none when that width is skipped (no contract; shape in `CandidateShape`) |
| Enumerator.BestMapping | src/main.rs:406-511 | the enumerator's result: none when rejected, else the first cheapest candidate (no contract; properties in `BestMappingNone`, `BestMappingShape`, `BestMappingIsEarliestCheapest`) |
| Enumerator.CandidateShape | src/main.rs:436-496 | every candidate built for a width keeps the memory's identity, mode and size, has 1..16 blocks in series, blocks = series × parallel, covers the memory with no superfluous row or column of blocks, a legal block shape, and the overhead of its chain |
| Enumerator.BestMappingNone | src/main.rs:412-510 | the enumerator finds nothing exactly when the memory is rejected up front (TDP without a TDP mode, or no positive port width) or every width is skipped |
| Enumerator.BestMappingShape | src/main.rs:482-498 | a found mapping is not for a rejected memory, satisfies the shape invariant, and carries its own cost |
| Enumerator.BestMappingIsEarliestCheapest | src/main.rs:498-510 | a found mapping is the candidate of some listed width, no candidate is cheaper, and every earlier width's candidate is strictly dearer |
| Enumerator.BestMappingBeatsCandidate | src/main.rs:498-510 | when a kind offers some candidate, the enumerator finds one, reports its true cost, and that cost is no greater than the offered candidate's |
| Enumerator.BestMappingIndex | src/main.rs:498-510 | the position of the found mapping in the width list, with its cost and the minimality and tie-break facts at that position |
| Enumerator.BlockRamWidthUnbounded | src/main.rs:422-472 | on a block RAM, any non-TDP memory of positive width and depth at most 16 blocks deep has a mapping, whatever its width |
| Enumerator.OneBitWideCandidate | src/main.rs:451-472 | a one-bit-wide block RAM candidate exists for any non-TDP memory of positive width and depth at most 16 blocks deep |
| Enumerator.BuildWidthCandidates | src/main.rs:422-433 | the width loop builds exactly the specified width list |
| Enumerator.CandidateForWidth | src/main.rs:437-496 | the loop body for one width builds exactly the specified candidate, or skips exactly when the specification skips |
| Enumerator.BestMappingForPhysType | src/main.rs:406-511 | the enumerator returns exactly the specified first cheapest candidate, or nothing |
| Chooser.Choose | src/main.rs:514-561 | the chooser's result: the first cheapest per-kind result, or the error naming the memory and its circuit (no contract; properties in the lemmas below) |
| Chooser.ChooseFailsIffNoTypeFits | src/main.rs:524-560 | the chooser fails exactly when every enabled kind's enumerator finds nothing, and then names the memory and its circuit |
| Chooser.ChosenIsCheapestCandidate | src/main.rs:406-561 | a chosen mapping is a candidate the enumerator builds for some enabled kind, and it costs no more than any candidate of any enabled kind |
| Chooser.ChooseIsEarliestCheapestType | src/main.rs:524-553 | a chosen mapping is some enabled kind's best, no enabled kind is cheaper, and every enabled kind earlier in LUTRAM, 8K, 128K order is strictly dearer |
| Chooser.ChosenMappingShape | src/main.rs:527-553 | a chosen mapping satisfies the shape invariant of an enabled kind |
| Chooser.ChooseMappingForMemory | src/main.rs:514-561 | the three guarded enumerator calls with the strict-`<` update return exactly the specified choice or error |
| Chooser.TrueDualPortWithoutTdpTypesFails | src/main.rs:412-414 | a true-dual-port memory fails when no enabled block RAM has a TDP mode |
| Chooser.WideMemoryMaps | src/main.rs:460-472 | a 200-bit-wide single-port memory maps when only a 128K block RAM with 128-bit ports is enabled |
| Sharing.Candidates | src/main.rs:145-166 | the candidate list is in vector order, in range, and holds only eligible mappings with their logical bit counts |
| Sharing.MergeAt | src/main.rs:209-221 | a merge only sets shared flags, TDP mode and the right side's group id, and keeps every other field |
| Sharing.Inner | src/main.rs:181-222 | the partner scan keeps the state shape and only ever grows it (flags set, modes and group ids changed) |
| Sharing.Middle | src/main.rs:175-223 | the middle loop keeps the state shape and only grows it |
| Sharing.Outer | src/main.rs:169-224 | the outer loop keeps the state shape and only grows it |
| Sharing.SharePass | src/main.rs:141-225 | the whole pass for one kind from the mapping vector and the block total (no contract; properties in `SharingProps`) |
| Sharing.ShareAll | src/main.rs:126-139 | the 8K pass then the 128K pass on its output, each only for a kind present (no contract; effect in `DriverProps.ShareIfPresentEffect`) |
| Sharing.CollectCandidates | src/main.rs:145-166 | the filter loop builds exactly the specified candidate list |
| Sharing.MergeInPlace | src/main.rs:209-219 | the in-place merge leaves the array and flags equal to the specified merge |
| Sharing.PartnerScan | src/main.rs:181-222 | the in-place innermost loop ends in the specified state, including the block total |
| Sharing.MiddlePass | src/main.rs:175-223 | the in-place middle loop ends in the specified state |
| Sharing.ShareType | src/main.rs:141-225 | the in-place pass leaves the mappings and the block total equal to the specified pass |
| Sharing.ApplySharing | src/main.rs:126-139 | the 8K pass runs first and the 128K pass on its output, each only for a kind present, with the specified totals |
| SharingProps.InnerFirstPartner | src/main.rs:181-222 | the partner scan merges `i` with the first pairable later candidate and stops, or changes nothing when there is none |
| SharingProps.MergeKeepsLog | src/main.rs:209-221 | a merge keeps the merge log explaining the state |
| SharingProps.InnerKeepsLog | src/main.rs:181-222 | the partner scan keeps the log invariant |
| SharingProps.MiddleKeepsLog | src/main.rs:175-223 | the middle loop keeps the log invariant |
| SharingProps.OuterKeepsLog | src/main.rs:169-224 | the outer loop keeps the log invariant |
| SharingProps.SharePassRunOK | src/main.rs:141-225 | the whole pass ends with the log invariant |
| SharingProps.ShareTypeMerges | src/main.rs:168-224 | the block total drops by exactly one per merge; each merge joins two eligible mappings passing the test with its driver's bits, both shared, both now TDP, the right side in the left side's group; merges are pairwise disjoint; every mapping outside the merges is unchanged |
| SharingProps.ShareTypeFrame | src/main.rs:147-166 | only mode and group id change, and a mapping failing the candidate filter is untouched |
| SharingProps.InnerNoPartner | src/main.rs:181-222 | after its scan, `i` is shared or has no partner |
| SharingProps.MiddleNoPartner | src/main.rs:175-223 | after the middle loop, every scanned candidate is shared or has no partner |
| SharingProps.OuterDone | src/main.rs:169-224 | after the outer loop, every outer candidate is shared or leaves no pairable pair |
| SharingProps.ShareTypeLeavesNoPair | src/main.rs:169-224 | the greedy pass leaves no unshared outer candidate and unshared pair that its own test would accept |
| SharingProps.CandidatesComplete | src/main.rs:147-166 | every mapping that passes the filter is in the candidate list |
| SharingProps.MiddleQuiet | src/main.rs:175-223 | with no pairable pair, the middle loop changes nothing |
| SharingProps.OuterQuiet | src/main.rs:169-224 | with no pairable pair, the outer loop changes nothing |
| SharingProps.OutputCandidate | src/main.rs:147-166 | a candidate of the pass's output was an unchanged, unshared candidate of its input |
| SharingProps.SidesContain | src/main.rs:209-221 | both mappings of every logged merge are among the merged mappings |
| SharingProps.GroupAfterPass | src/main.rs:209-221 | after the pass, a mapping in no merge is unchanged; a merged one was a candidate, is now TDP, and keeps its own group id on the left or takes its left partner's on the right |
| SharingProps.GroupIdsIdentifyMerges | src/main.rs:209-221 | when each candidate's group id is its own position and no other mapping carries it, two mappings share a group id after the pass exactly when the pass merged them or they shared one before; such an earlier pair is untouched, and a merged pair is TDP in one circuit, kind and physical shape |
| SharingProps.MergedShareBlock | src/main.rs:209-221 | a merged pair ends with one group id, both TDP, in one circuit, on the processed kind, with one physical shape |
| SharingProps.GroupsMeet | src/main.rs:209-221 | for one pair: sharing a group id after the pass means the pass merged them or they shared one before |
| SharingProps.ShareTypeIdempotent | src/main.rs:141-225 | a second pass on the output changes no mapping and saves no block |
| SharingProps.ExactFillUsesDriverBits | src/main.rs:169-221 | two mappings of 800 and 4096 bits in 8192-bit blocks are merged (driven by the 4096-bit one), though they do not fill the block |
| Driver.BlockConfig | src/main.rs:574-585 | the TDP width is the maximum width halved and truncated toward zero: for a non-negative maximum, twice it is the maximum or one less; for a negative maximum, twice it is the maximum or one more |
| Driver.MapAll | src/main.rs:593-616 | a successful mapping phase has one mapping per memory |
| Driver.Tally | src/main.rs:607-612 | adding a mapping adds its extra LUTs and its blocks to exactly its own kind's total |
| Driver.AssignRamSpec | src/main.rs:563-636 | the run's result: the mapping phase, then sharing, with the totals of the mapping phase (no contract; properties in `DriverProps`) |
| Driver.MapCircuit | src/main.rs:594-615 | the loop over one circuit's memories either stops with the specified first error or extends the mappings, group ids and totals as specified |
| Driver.AssignRam | src/main.rs:563-636 | the driver returns exactly the specified result: the shared mappings and the totals, or the first memory's error |
| Driver.MapAllNext | src/main.rs:594-605 | mapping one more memory of a circuit applies the chooser to it with the next group id: its error ends the phase, its mapping is appended |
| Driver.MapAllFailureSticks | src/main.rs:593-604 | once a memory fails, no later memory changes the outcome |
| DriverProps.MapAllPerSlot | src/main.rs:593-616 | the mapping phase succeeds exactly when every memory can be chosen, with memory `k`'s choice at position `k`; otherwise it fails with the first failing memory's error |
| DriverProps.AssignRamFailsIffUnmappable | src/main.rs:593-604 | a run fails exactly when some memory cannot be mapped |
| DriverProps.AssignRamReportsFirstUnmappable | src/main.rs:555-560 | a failed run names the first memory that no enabled kind can realise, and its circuit |
| DriverProps.MappedInOrder | src/main.rs:593-605 | before sharing, memory `k` (circuits in order, then memories) has its circuit id, ram id, mode and group id `k`, on an enabled kind |
| DriverProps.SumsUnchanged | src/main.rs:607-612 | totals depend only on fields that sharing does not change |
| DriverProps.SumBlocksUnused | src/main.rs:608-612 | a kind that no mapping uses totals zero blocks |
| DriverProps.ShareIfPresentEffect | src/main.rs:617-627 | a sharing pass for an optional kind keeps every total's fields and lowers the kind's total by its merge count, or does nothing when the kind is absent |
| DriverProps.MappedShape | src/main.rs:593-605 | a memory mapped onto a block RAM satisfies the shape invariant of that block RAM's configuration |
| DriverProps.MergeFitsBlock | src/main.rs:199-221 | when both sides of a merge have the enumerator's shape on the merging block RAM and non-negative depths, their logical bits add up to at most one block |
| DriverProps.AssignRamMergesFitBlock | src/main.rs:617-627 | in a successful run over memories of non-negative depth, every pair the 8K pass or the 128K pass merges holds at most one block's bits of that block RAM |
| DriverProps.AssignRam128kMergesFitBlock | src/main.rs:617-627 | the 128K half of the above, on the 8K pass's output |
| DriverProps.EightKPassKeeps128k | src/main.rs:133-135 | the 8K pass changes no 128K mapping |
| DriverProps.Merge128kFits | src/main.rs:136-138 | one merge of the 128K pass joins two mappings that hold at most one block's bits |
| DriverProps.TdpMergeWithoutTdpMode | src/main.rs:574-579 | with a widest 8K port of 1 bit the 8K kind has TDP width 0, yet the 8K pass merges two single-port mappings into true-dual-port ones |
| DriverProps.AssignRamGroupsAreMerges | src/main.rs:593-627 | in a successful run, two final mappings share a group id exactly when the 8K pass or the 128K pass merged them, and then both are TDP in one circuit, kind and physical shape |
| DriverProps.EightKGroups | src/main.rs:133-135 | with every mapping in its own group, two mappings share a group id after the 8K stage exactly when the 8K pass merged them, and then they share an 8K block |
| DriverProps.OneTwentyEightKGroups | src/main.rs:136-138 | on the 8K stage's output, the 128K pass adds exactly its own merges to the groups, and every group pair shares a block |
| DriverProps.AssignRamShape | src/main.rs:593-627 | in a successful run, final mapping `k` records memory `k`'s circuit, id, width and depth; it is 1 to 16 blocks deep with at least one in parallel, occupies series × parallel blocks, covers the width and depth, keeps the chooser's overhead, and sits on an enabled kind |
| DriverProps.AssignRamTotals | src/main.rs:563-636 | in a successful run, each final mapping differs from its mapping-phase result at most in mode and group id; the extra-LUT and LUTRAM totals are those of the final mappings; each block-RAM total is the final mappings' blocks less one per merge of its pass; a disabled kind's total is zero |

## Left out

- `block_ram_area` and `mapping_cost` (src/main.rs:342-345, 371-405) compute in `f64`. They are a
  cost-function parameter, so every selection property holds for every cost. NaN and infinite costs
  are not modelled: a real-valued cost is always comparable.
- The `f64::INFINITY` starting cost in `choose_mapping_for_memory` is modelled as "nothing kept
  yet", so the first available candidate is always kept.
- `read_data` and `main` are not part of this model. They do file parsing, option handling and
  output, and they include main's own stop when no memory kind is enabled. `utils.rs` is not part
  of this model either.
- `PHYS_RAM1` and `PHYS_RAM2` are not modelled. The driver builds its block-RAM configurations from
  the run's options instead.
- `MemMode::from_str`, `as_str` and `PhysType::type_id` are not modelled. They only convert to and
  from text and numbers.
- 32-bit wrap-around of `i32` arithmetic is not modelled: all counts are unbounded integers. This
  covers:
  - widths × depths, block totals and group ids;
  - the mux product `width * luts_per_bit` (src/main.rs:368);
  - the doubling loop's `w *= 2` (src/main.rs:429). For a port cap of 2^30 or more it overflows: a
    debug build panics, and in a release build `w` wraps to a negative value and then to 0, so the
    loop never ends. `PowersFrom` always ends.
- Chooser.ChooseMappingForMemory: the panic that aborts the process is an error result. Its message
  text is not modelled.
- Driver.AssignRam: the run's seven options are grouped in one `Arch` value. The pass over one
  circuit (`MapCircuit`) and the running totals (`Tally`) are separate methods.
- DriverProps.AssignRamMergesFitBlock: assumes every memory has a non-negative depth. With Rust's
  truncating division a negative size can still yield a one-block candidate, and then the bound need
  not hold. Input sizes come from the parser, which is not part of this model.
- Sharing.ShareType: the loop bodies are separate methods (`CollectCandidates`, `PartnerScan`,
  `MiddlePass`, `MergeInPlace`). The candidate list is a `seq` of index and bit-count pairs. The
  merge log in the specification state has no counterpart in the source; it only records which
  pairs were merged.
