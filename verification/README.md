# Arkade Poker, verified

Arkade Poker is heads-up Texas Hold'em for bitcoin: two clients agree on a game, shuffle an encrypted deck together, lock
their money in a covenant and play, each move being a transaction that the covenant's programs must let through. This project
models the parts on which the money depends and proves what they promise, from the bytes of a packet to a whole game.

| part | modules | what it is about |
|---|---|---|
| the hand | Hand, Rules, Actions, Runs, Terminals, Choices, Codec | the covenant's states and packets, the action builders, and what every run of them keeps |
| the opponent's check | Admission, Refinement, KnownCards, FalseShares | the independent re-check of every spend, why it accepts exactly what the builders build, and when decoding refuses |
| the covenant programs | Machine, Laws, Pieces, Preservation, Betting, RevealPrograms, AllInPrograms, FundingPrograms, TerminalPrograms, ShowdownProgram, Emitters, RevealEmitters, TerminalEmitters | the stack machine, the emitted byte code and what each program accepts |
| enforcement | Enforcement, BettingEnforcement, RevealEnforcement, AllInEnforcement, FundingEnforcement, Programs, Settlement | each program against its builder, and whole chains of accepted spends |
| the shuffle | Algebra, Groups, BayerGroth, Deal | masking, shuffling, the Bayer-Groth argument and revealing |
| its soundness | Polynomials, Openings, ProductSoundness, PermutationSoundness, ShuffleSoundness, AcceptedTrees | what a prover who answers can be held to |
| hand ranks | Bits, Combinations, Ranking, Merkle | numbering hands, ranking them and proving a rank against the committed root |
| messages | Codecs, Messages, Buffers, SavedWork | canonical encodings and what they bind |
| the game | Events, SetupRules, Reducer, LiveGame, GameRuns, SetupRuns, Agreements | the event reducer, whole logs, and two clients together |
| durability | Storage, FileLogs, Journal, Recovery | the record log under crashes, the journal, and recovery after a restart |
| the edges | Transport, CoinSelection | the peer transport's receive cache and the choice of wallet coins |

Bytes and Options hold what the other modules share. Where the program changes things in place (the reducer's objects, the log,
the journal, the driver, the transport, the encoder and decoder, the program builder, the in-place shuffle and tree folding)
the model is a class or a method over an array, proved against functions on values; those functions carry the lemmas.

## Model

| member | source | states |
|---|---|---|
| Hand.PhaseCodec | internal/covenant/packets.go:126-184 | A phase has the byte `b` if and only if `b` decodes to that phase: the phase table is a bijection in both directions. |
| Codec.StateCodec | internal/covenant/packets.go:206-291 | Packets decode to a state if and only if that state is well formed, all four of its packets are there byte for byte, and no packet of an unknown kind is. |
| Actions.PublishReveals | internal/covenant/action_reveals.go:13-87 | A witness is published exactly when it has the expected kind, no unused field and only encodable shares, and then its cards stand in their slots, all other slots are as before and the proofs are in reverse order. |
| Actions.ValidateFunding | internal/covenant/sources.go:31-66 | Funding is admitted exactly when the coins are money, cover the required amount and leave exactly the named change, with coins and change only where something is required. |
| Actions.BuildPlayer1Funding | internal/covenant/action_build.go:203-228 | The builder, branch by branch, builds exactly the funding move of the declarative rules or refuses with them. |
| Actions.BuildPlayer2Opening | internal/covenant/action_betting.go:9-34 | The same for the opening bet with its reveal. |
| Actions.BuildBet | internal/covenant/action_betting.go:41-123 | The same for call, check and raise: every branch of the wager history, the minimum raise and the all-in exception. |
| Actions.BuildBoardReveal | internal/covenant/action_reveals.go:102-127 | The same for a board reveal's two passes. |
| Actions.BuildShowdownReveal | internal/covenant/action_reveals.go:128-152 | The same for the showdown reveal's two passes. |
| Actions.BuildAllInCall | internal/covenant/action_reveals.go:153-179 | The same for the capped call that publishes everything the caller still owes. |
| Actions.BuildAllInReveal | internal/covenant/action_reveals.go:180-201 | The same for the bettor's last reveal. |
| Runs.MoveKeepsInv | internal/covenant/action_build.go:28-145 | One built move keeps the hand's invariant, writes only unpublished slots of the player whose turn it is, moves the deadline by one interval and locks exactly the value of the new state. |
| Runs.RunKeepsInv | internal/covenant/action_reveals.go:13-201 | Every state of every run of the action builders keeps the phase's wager relation and exactly the slots due in its phase, and its deadline counts its moves. |
| Runs.PublishedForever | internal/covenant/action_reveals.go:13-87 | Over any stretch of any run a published share is never written again. |
| Runs.HandsAreFinite | internal/covenant/action_betting.go:35-123 | In every run the raises number at most the ceiling of maxWager over minBet, and the moves at most a constant more than the raises. |
| Runs.EveryMoveLowersTheMeasure | internal/covenant/action_betting.go:41-123 | Every move the rules allow lowers a natural number of the state. |
| Runs.NoDeadlock | internal/covenant/packets.go:190-204 | In every reachable state before evaluation the obligated player has a move that builds, unless the deadline field is exhausted. |
| Terminals.ConcessionConserves | internal/covenant/action_terminal.go:11-30 | From every reachable state a concession builds exactly in the conceding phases; it pays out all the covenant holds, both players at least the bond, and its actor exactly the bond. |
| Terminals.TimeoutConserves | internal/covenant/action_terminal.go:34-48 | From every reachable state a timeout builds exactly before evaluation, and the player who was waiting gets all the covenant holds. |
| Terminals.ShowdownConserves | internal/covenant/action_terminal.go:52-76 | In evaluation every claim of nine distinct cards and two ranks settles, paying out all the covenant holds; a tie is split exactly in half and a loser keeps exactly the bond. |
| Terminals.DistinctCards | internal/covenant/action_terminal.go:77-98 | The seen-array loop accepts exactly the lists of distinct cards below 52. |
| Choices.OffersAreExact | internal/game/hand_decide.go:98-199 | In every reachable betting state what the actor is offered is exactly what the bet builder accepts, and what it costs is exactly what the built spend adds to the covenant. |
| Choices.AllInOfferIsExact | internal/game/hand_decide.go:98-199 | Facing an all-in the offer is the call alone, at the price of the built call. |
| Choices.OpeningOfferIsExact | internal/game/hand_decide.go:142-199 | An opening input is funded exactly when its bet builds, at the built price; a raise to zero is the one such input that is not on offer. |
| Admission.AdmitShares | internal/game/admission.go:383-406 | The loop over the new slots accepts exactly when every slot was unknown and its share and proof verify, and leaves the expected successor with exactly those slots copied. |
| Admission.AdmitSpend | internal/game/admission.go:245-433 | The check as performed, slot by slot, decides exactly the declarative admission condition and returns exactly the slots known afterwards. |
| Refinement.AdmissionRefinesBuilders | internal/game/admission.go:264-426 | On every reachable state a live spend passes the balance, layout, successor, share and contribution checks if and only if some move of the action builders produces it with verifying shares and an admissible layout (KnownCards.WholeAdmissionRefinesBuilders adds the checks of its sources and cards). |
| KnownCards.PairsAreTheCardsSlots | internal/game/cards.go:12-13 | The nine slot pairs used for decoding are exactly each card's two slots, one published by each player. |
| KnownCards.DecodedCards | internal/game/cards.go:157-198 | Decoding refuses if and only if some card with both shares known does not decrypt from verified shares, or two decrypt to the same card; otherwise it returns exactly the cards that decrypt. |
| KnownCards.TwoShufflesAreProper | internal/game/setup_admission.go:180-232 | The nine cards dealt from a deck both players shuffled open, under both keys, to nine different cards. |
| KnownCards.DecodesWhereTheyLand | internal/game/cards.go:157-198 | On such a deal verified shares decode if and only if what they miss of the true sums moves every known card onto a card, and no two onto the same; the cards decoded are then exactly those. |
| KnownCards.TrueSharesDecode | internal/game/cards.go:157-198 | So verified shares that are true never make decoding refuse, and each known card is its own. |
| KnownCards.FalseShareAnswersOnce | internal/shuffle/reveal.go:107-126 | A verified share that is false carries commitments that can answer no other challenge. |
| FalseShares.VerifiedShareIsRefused | internal/game/cards.go:157-198 | A run of decoding on a proper deal that refuses although every published share has verified. |
| FalseShares.FalseShareIsNotNoticed | internal/game/cards.go:157-198 | And one that takes a verified false share and decodes the first card to another one. |
| KnownCards.WholeAdmissionRefinesBuilders | internal/game/admission.go:137-433 | With the source checks and the closing card check included: on every reachable state of a proper deal the whole check accepts if and only if some move of the builders produces the spend from distinct sources beginning with the covenant, with verifying shares that move every known card onto a card of its own (true shares do) and an admissible layout; and the known shares stay verified and match the new state. |
| KnownCards.CheckEvaluation | internal/game/cards.go:263-291 | A claimed showdown is accepted exactly when all nine cards decode to the claim and both ranks are the hands' own and prove against the root. |
| KnownCards.EvaluateHand | internal/game/cards.go:245-262 | A player's own evaluation comes out if and only if all nine cards decode to different cards of the deck and the cache commits to both hands; the opponent's check then accepts it, with the same winner. |
| KnownCards.OneOutcome | internal/game/cards.go:263-291 | On a proper deal every accepted claim names the cards its verified shares lead to, the dealt ones if they are true, so all have the one winner those decide. |
| Preservation.PreservationRuns | internal/covenant/program_reveals.go:55-92 | For every contiguous batch the emitted code goes on if and only if every byte of the three share packets outside the batch's slots is unchanged, and leaves the machine as it found it. |
| Emitters.EmitRevealPreservation | internal/covenant/program_reveals.go:55-92 | The emitter refuses exactly the batches with unknown slots or gaps. |
| Emitters.EmitBetting | internal/covenant/program_live.go:146-258 | The builder loop emits, opcode for opcode, the program that the acceptance proofs run on, or refuses invalid amounts. |
| RevealEmitters.EmitBoardReveal | internal/covenant/program_live.go:261-333 | The same for the board reveal. |
| RevealEmitters.EmitShowdownReveal | internal/covenant/program_live.go:336-381 | The same for the showdown reveal. |
| RevealEmitters.EmitAllInCall | internal/covenant/program_live.go:384-430 | The same for the all-in call. |
| RevealEmitters.EmitAllInReveal | internal/covenant/program_live.go:433-473 | The same for the last reveal. |
| RevealEmitters.EmitPlayer1Funding | internal/covenant/program_live.go:12-67 | The same for the funding. |
| RevealEmitters.EmitPlayer2Opening | internal/covenant/program_live.go:70-142 | The same for the opening. |
| TerminalEmitters.EmitConcession | internal/covenant/program_terminal.go:26-46 | The same for the concession, with its phase mask. |
| TerminalEmitters.EmitTimeout | internal/covenant/program_terminal.go:48-74 | The same for the timeout, with the mask of the opponent's phases. |
| TerminalEmitters.EmitShowdown | internal/covenant/program_live.go:545-643 | The same for the showdown settlement. |
| FundingEnforcement.FundingProgramIsFunding | internal/covenant/program_live.go:12-67 | The emitted program accepts a spend if and only if the funding builder makes it from the initial state with verifying shares. |
| FundingEnforcement.OpeningProgramIsOpening | internal/covenant/program_live.go:70-142 | The same equivalence for the opening. |
| BettingEnforcement.BettingProgramIsBet | internal/covenant/program_live.go:146-258 | The same equivalence for betting, for every street and actor: the stack arithmetic over history, increment, all-in and value accepts exactly the builder's spends. |
| RevealEnforcement.RevealProgramIsReveal | internal/covenant/program_live.go:261-381 | The same equivalence for board and showdown reveals, the pass being read on chain. |
| AllInEnforcement.CapProgramIsCap | internal/covenant/program_live.go:384-473 | The same equivalence for the all-in call and the last reveal. |
| TerminalPrograms.ConcessionProgramIsConcession | internal/covenant/program_terminal.go:26-46 | The concession program accepts exactly the spends of its actor's conceding phases that make the concession builder's payouts, for every source value that is money. |
| TerminalPrograms.TimeoutProgramIsTimeout | internal/covenant/program_terminal.go:48-74 | The timeout program accepts exactly the spends, once the deadline has passed, that pay the beneficiary everything while the opponent is obligated. |
| ShowdownProgram.ShowdownProgramIsShowdown | internal/covenant/program_live.go:545-666 | The showdown program accepts exactly the settlements the showdown builder makes from nine decrypted distinct cards and two proven ranks, including the shape of its seven witness elements. |
| Programs.EveryProgramIsItsBuilder | internal/covenant/scripts.go:42-151 | Each of the seven live programs, for every street and actor it is emitted for, accepts exactly the spends that an action builder makes from a state it serves. |
| Programs.ChainIsRun | internal/covenant/scripts.go:60-151 | Every chain of spends the programs let through from the initial deposit on is a run of the action builders. |
| Programs.ChainsAreSafe | internal/covenant/scripts.go:60-151 | On every such chain each carried state keeps the hand's invariant and its exact deadline, and raises and spends are bounded. |
| Programs.AcceptedIsReadable | internal/covenant/packets.go:235-291 | A spend accepted on chain reads back as a state if and only if it carries no packet of another kind. |
| Programs.ForeignPacketPasses | internal/covenant/packets.go:235-256 | Adding a packet of any other kind to an accepted spend leaves it accepted and makes it unreadable. |
| Settlement.SettlementsConserve | internal/covenant/program_terminal.go:26-74 | Whatever exit program settles, right after the initial deposit or after any chain of accepted spends, it pays out exactly what the covenant holds in that state, and everyone who did not time out gets at least the bond. |
| Deal.DrawsAreUniform | internal/shuffle/work.go:75-92 | Above the rejection threshold every index is selected by equally many 32-bit words. |
| Deal.EveryOrderOnce | internal/shuffle/work.go:75-92 | Every order of the deck is reached by exactly one list of selections, so uniform words give a uniform order. |
| Deal.Work.Permute | internal/shuffle/work.go:75-92 | The in-place loop leaves the order its words select and consumes exactly those words; when they run out the array still holds the same cards. |
| Deal.Remask | internal/shuffle/shuffle.go:85-101 | Masking again fails only if every draw left would cancel the mask, and otherwise adds one draw to the mask and its multiple of the key to the card. |
| Deal.Shuffle | internal/shuffle/shuffle.go:102-124 | A shuffle is returned if and only if neither the words nor the draws run out; it is then the order and masks they select, a masked permutation of the input, and the other party's verifier accepts it. |
| Deal.TwoShufflesDeal | internal/shuffle/shuffle.go:55-69 | After both shuffles position i opens to card p1[p2[i]], and no two positions open to the same card. |
| Deal.AggregateReveals | internal/shuffle/reveal.go:130-145 | The sum is returned exactly when no share and not the sum itself is the point at infinity. |
| Deal.RevealCard | internal/shuffle/reveal.go:148-159 | The search returns a card exactly when the plaintext is that card's multiple of the generator, which is at most one. |
| Deal.DealIsCorrect | internal/shuffle/reveal.go:78-159 | Two honest shuffles and both players' shares reveal p1[p2[i]] at every position. |
| Deal.ProveOwnership | internal/shuffle/reveal.go:26-63 | The proof of a generated key satisfies its verifier's equation, whatever the hash. |
| Deal.Reveal | internal/shuffle/reveal.go:78-126 | The published share is the mask raised to the secret and its proof satisfies both verifier equations, whatever the hash. |
| Deal.RevealBinds | internal/shuffle/reveal.go:107-126 | Answers to two challenges for one pair of commitments force the share to be the true one. |
| BayerGroth.ProveMulti | internal/shuffle/bayer_groth.go:70-105 | For every deck, permutation, masks and coins the multi-exponentiation argument satisfies all of its verifier's equations. |
| BayerGroth.ProveProduct | internal/shuffle/bayer_groth.go:128-175 | The same for the product argument. |
| BayerGroth.Prove | internal/shuffle/bayer_groth.go:45-69 | For every deck size, honest shuffle, coins and hash the whole proof verifies. |
| BayerGroth.Verify | internal/shuffle/bayer_groth.go:106-206 | The verifier's loops decide exactly the equations of both arguments under the transcript's challenges, and that no card lost its mask. |
| Openings.TwoAnswersOpen | internal/shuffle/parameters.go:58-68 | From answers to two challenges about two commitments openings of both can be computed. |
| ProductSoundness.FactorsMultiply | internal/shuffle/bayer_groth.go:176-206 | Answers from fixed openings under one more challenge than there are factors force the factors' product to be the claimed one. |
| PermutationSoundness.PermutationHeld | internal/shuffle/bayer_groth.go:176-206 | Values whose differences multiply to the public product, for enough points, are the positions and their powers in one permuted order. |
| ShuffleSoundness.MasksFound | internal/shuffle/bayer_groth.go:106-127 | If the weighted predecessor is re-encrypted to the permuted weights of the successor under one more base than there are cards, every card of the successor is one of the predecessor's masked under the key. |
| AcceptedTrees.ComparedOpenTogether | internal/shuffle/bayer_groth.go:106-206 | Wherever a tree of accepted answers opens a commitment twice, both openings are of the same point. |
| AcceptedTrees.AcceptedTreeIsAShuffleOrCollides | internal/shuffle/bayer_groth.go:106-206 | Special soundness: a tree of accepted answers to one prover's first messages either holds a permutation and masks that make the successor a shuffle of the predecessor, or shows two different openings of one of its commitments. |
| Combinations.ComputeChoose | internal/merkel/ranking.go:184-194 | The running product computes the binomial coefficient, every division being exact. |
| Combinations.NoOverflow | internal/merkel/ranking.go:184-194 | For a 52-card deck no intermediate product reaches 64 bits. |
| Combinations.CombinationIndex | internal/merkel/ranking.go:196-207 | The loop returns the number of the sorted hand, whatever order the cards come in. |
| Combinations.CombinationAt | internal/merkel/ranking.go:209-226 | The block-skipping loop returns the combination with the given number. |
| Combinations.IndexOfAt | internal/merkel/ranking.go:196-226 | Numbering a numbered combination gives the number back. |
| Combinations.AtOfIndex | internal/merkel/ranking.go:196-226 | The combination with a combination's number is that combination, and the number is below the number of combinations. |
| Combinations.OrderKept | internal/merkel/ranking.go:196-207 | Numbers follow the lexicographic order, in both directions. |
| Ranking.PackedOrder | internal/merkel/ranking.go:29-92 | Comparing packed strengths is comparing category and ranks from left to right, and equal strengths are equal tuples. |
| Ranking.ComputeStrength | internal/merkel/ranking.go:29-92 | The counting and grouping loops compute the strength of the declarative definition. |
| Ranking.ComputeHandRank | internal/merkel/ranking.go:158-175 | The pair-omitting loop computes the best rank over every choice of two cards to leave out. |
| Ranking.HandRankReordered | internal/merkel/ranking.go:158-175 | The rank of seven cards does not depend on their order. |
| Merkle.RankIsBound | internal/merkel/proof.go:103-128 | With hashes that do not collide, a proof of full depth that verifies for seven distinct cards proves their own rank: no hand has two. |
| Merkle.OnlyLeavesVerify | internal/merkel/proof.go:103-121 | Only a committed hand verifies against the root, whatever siblings come with it. |
| Merkle.VerifyPayload | internal/merkel/proof.go:103-121 | The folding loop decides plausibility and equality with the root. |
| Merkle.ValidateCache | internal/merkel/proof.go:140-162 | The cache loops accept exactly the caches consistent up to the root. |
| Merkle.FoldBlock | internal/merkel/proof.go:196-206 | The in-place halving records the sibling of every level and leaves the block's root in front. |
| Merkle.Generate | internal/merkel/proof.go:164-218 | A proof is generated if and only if the cards are valid and the cache, consistent up to the root, holds the hand's own block; it verifies for the hand's own rank, and the final self-check never fails. |
| Merkle.Evaluate | internal/merkel/proof.go:227-247 | An answer comes out if and only if the nine cards are different cards of the deck and the cache commits to both hands; both then get verifying proofs of their own ranks, and the winner is the one ranked higher. |
| Merkle.RealLeaves | internal/merkel/proof.go:18-27 | Seven cards of 52 are chosen in 133784560 ways, the committed tree's leaf count. |
| Messages.MessageCodec | internal/game/codec.go:225-322 | Bytes decode to a message if and only if they are its canonical encoding. |
| Messages.TranscriptBinds | internal/game/setup_admission.go:136-157 | Two equal setup transcripts hold the same invitation and the same two key messages, although their parts are not separated. |
| Messages.ContextBinds | internal/game/setup_admission.go:136-157 | Equal shuffle contexts have the same stage, invitation and ordered keys, if the hash tells their transcripts apart. |
| Messages.ServicesBind | internal/game/config.go:34-54 | Equal service bindings come from equal service settings, if the hash tells them apart. |
| Buffers.Encoder.Chunk | internal/game/codec.go:41-48 | The growing buffer with its sticky error appends exactly the length-prefixed bytes or stops for good. |
| Buffers.Decoder.Raw | internal/game/codec.go:32-36 | The moving position and sticky error take exactly what the value-level decoder takes, and zeros after an error. |
| Buffers.Decoder.Outpoints | internal/game/hand_codec.go:69-139 | The loop over a count reads exactly the list the value-level decoder reads, or fails with it. |
| Buffers.ShortLists | internal/game/hand_codec.go:132-139 | Refusing a count early refuses only lists that would have failed later. |
| SavedWork.SavedSpendCodec | internal/game/event_codec.go:170-258 | With an event's re-encoding comparison, bytes are read as a saved spend if and only if they are its encoding; what the field decoder alone reads is encoded that way if and only if its kind is known, its bet fits and its bundles parse. |
| SavedWork.FieldDecoderIsLenient | internal/game/hand_codec.go:301-404 | The field decoder reads back an action of no known kind, a bet that is neither check, call nor raise, and bundles that do not parse; the encoder writes none of them and the comparison refuses each. |
| SavedWork.PendingSpendIsEqual | internal/game/hand_reduce.go:387-400 | The copy of the saved work handed out is equal to it, whenever it can be encoded. |
| SavedWork.SameBytesSameWork | internal/game/hand_reduce.go:113-120 | Comparing encodings with the signatures left out compares everything else exactly. |
| SavedWork.CarriedAlike | internal/game/hand_reduce.go:113-400 | The program's comparison of bytes implies the comparison the reducer's model makes, and the copy handed out is the spend the reducer carries. |
| LiveGame.GameState.Apply | internal/game/reduce.go:95-152 | Applying an event to the object succeeds exactly when the value-level step does and leaves its value; a refusal changes nothing, and nobody who shares the old setup object sees a change. |
| LiveGame.GameState.ReduceSetup | internal/game/reduce.go:153-312 | The in-place reduction of the candidate, stage by stage, agrees with the reducer on values in verdict and result. |
| LiveGame.GameState.ReduceHand | internal/game/hand_reduce.go:121-303 | The same for the facts of the hand. |
| GameRuns.ReplayKeepsGame | internal/game/events.go:72-90 | After replaying any log the accepted hand is a reachable state of the agreed covenant with exactly its value and published shares, and stage, setup and prepared work fit it. |
| GameRuns.WorkIsExact | internal/game/hand_reduce.go:121-303 | While work is prepared a step either accepts a transaction, which clears the work, or keeps action, bundle and hand; it is signed at most once, and neither abort nor new work is admitted. |
| GameRuns.WorkIsExactThroughout | internal/game/hand_reduce.go:121-303 | The same over any log in between. |
| GameRuns.OffersInEveryGame | internal/game/hand_decide.go:98-137 | After any log a local betting stage offers exactly the bets the builder accepts. |
| GameRuns.EverySettlementIsAllowed | internal/game/setup_admission.go:69-91 | The output checks made during setup suffice for every settlement of every later hand. |
| GameRuns.EverySettlementConserves | internal/game/admission.go:451-522 | Every admitted settlement pays out exactly the accepted covenant's value, and its winner, its kind and the larger payout agree. |
| GameRuns.TimeoutCanAlwaysBeClaimed | internal/game/hand_reduce.go:139-201 | A waiting player's matured timeout is always permitted, builds and passes its own admission. |
| SetupRuns.ReplayKeepsSide | internal/game/reduce.go:153-312 | After any log the invitation held is admissible, both message counters are the ones its role and stage call for, the message awaiting publication fits the stage, and the final shuffle it holds passes admission under its own context and gives the agreement it holds. |
| SetupRuns.TwoMessagesEachWay | internal/game/reduce.go:153-312 | A log that reaches an agreed game, and does not abort, published exactly messages 0 and 1 and received exactly messages 0 and 1. |
| Agreements.SameFinalSameContract | internal/game/setup_admission.go:180-232 | Two setups that admitted the same final shuffle hold the same contract, if proofs bind their context and the hash tells the two transcripts apart. |
| Agreements.SetupAgreement | internal/game/setup_admission.go:158-232 | Over every interleaving of a creator's and a joiner's events on an authenticated network: once a joiner of the creator's invitation admits the final shuffle both sides hold the same agreement and derive the same contract, if proofs bind their context and the hash tells the two sides' inputs apart. |
| Storage.FrameCodec | internal/storage/record.go:14-42 | A file is read as a record of this wallet and index if and only if it is that record's frame. |
| Storage.NamesAreOrdered | internal/storage/files_native.go:240-240 | Listing order is index order for every 64-bit index. |
| Storage.CrashKeepsTheLog | internal/storage/files_native.go:309-352 | Whatever directory a crash inside an append brings back, the log in it is the old one or the old one with the new record. |
| Storage.SurvivesExactly | internal/storage/files_native.go:309-352 | A list of unsynced directory versions is safe for an append if and only if each version alone keeps the old log or the new. |
| Storage.SettledExactly | internal/storage/files_native.go:242-352 | It is safe for every next record if and only if each version already keeps the old log. |
| FileLogs.FileLog.Load | internal/storage/files_native.go:242-298 | Loading an intact directory returns exactly its records and removes only staged files; any result it returns is what the directory keeps; an interrupted load loses nothing. |
| FileLogs.FileLog.Append | internal/storage/files_native.go:309-352 | Exactly when the append is refused, acknowledged or left uncertain, under each fault; an acknowledged append survives a crash at every point if and only if the versions found all keep the old log or the new, and leaves only the new; after a failed sync neither log is settled. |
| FileLogs.FileLog.Clear | internal/storage/files_native.go:150-164 | Stopped at any entry the directory keeps a prefix of the records; a crash there does too if and only if at most one record's removal is not yet synced. |
| FileLogs.ReopeningUnsyncedLeavesAGap | internal/storage/files_native.go:242-352 | A run: an append whose directory sync fails, a reload that reads the record, an acknowledged append, and a crash point at which no log can be read. |
| FileLogs.InterruptedClearLeavesAGap | internal/storage/files_native.go:150-164 | A run: a clear of two records stopped before its sync, and a crash that brings back the second record without the first. |
| Journal.Journal.Append | internal/game/journal.go:70-108 | An event is recorded exactly after its candidate was admitted and written; otherwise the live game is untouched; and, hashes not colliding, every crash point of a recorded append opens as the game before or after if and only if each directory version not yet synced when it began kept the log before or after. |
| Journal.LoadJournal | internal/game/journal.go:22-68 | An intact log restores exactly the game its events replay to, and one that does not replay is refused. |
| Journal.HeadPinsHistory | internal/game/reduce.go:95-152 | Two games with the same previous-event hash replayed the same events, if no two of them collide. |
| Recovery.Driver.Recover | internal/game/driver_recovery.go:12-100 | Recovery creates no work, keeps the game's invariant, and resubmits at most once, exactly the saved bytes by the saved route, and only after the source was seen unspent. |
| Transport.Transport.Admit | internal/nostr/transport.go:106-548 | A carrier from the possible peer is retained if and only if it is readable, new, not behind the cursor and within the limits, and then fixes the peer; it counts as equivocation if and only if another payload is cached under its number; nothing else changes what is retained. |
| Transport.Transport.Receive | internal/nostr/transport.go:314-376 | A number that may be asked for is delivered at once if it is retained; otherwise with the payload of the first frame of the peer's that has it; the wait ends without it only if every frame was skipped (kept, where it is the peer's and ahead), and fails if and only if it may not be asked for or a frame stops it. |
| Transport.Transport.Use | internal/nostr/transport.go:314-548 | Over any use of one transport each sequence number is delivered with one payload only, nothing is delivered after an equivocation, and the bytes held stay within their bound. |
| CoinSelection.Collect | internal/wallet/funding.go:49-113 | The indexer's answer is accepted exactly when no record is impossible or repeated, and yields exactly the usable coins. |
| CoinSelection.Choose | internal/wallet/funding.go:133-157 | The pass over ordered coins funds the amount if and only if some point of it suffices: the coins kept so far, with those that would overshoot left out, number at most 255 and leave admissible change. |
| CoinSelection.GreedyIsPrefixes | internal/wallet/funding.go:133-157 | When no coin overshoots, these points are the prefixes of the ordered coins. |
| CoinSelection.SelectFunding | internal/wallet/funding.go:32-167 | The whole selection: which error for which input, distinct usable coins that cover the amount with admissible change, one coin where one pays exactly, and funding if and only if the pass over the one ordering of the candidates finds it. |
| CoinSelection.GreedyCanMiss | internal/wallet/funding.go:133-157 | A run of the selection that refuses to pay ten from coins of seven, six and four, although six and four pay it exactly. |

## Findings

Properties that the program's design suggests and that do not hold as stated, each with an input and the exact condition under
which it holds.

| property | where it fails | exact condition |
|---|---|---|
| An acknowledged append survives every crash | FileLogs.ReopeningUnsyncedLeavesAGap: `load` (internal/storage/files_native.go:242-299) never syncs the directory, so a record whose rename was not synced can be built upon | Storage.SettledExactly and FileLogs.FileLog.Append: for every next record it does if and only if each directory version not yet synced keeps the old log, that is, if the last rename's directory sync succeeded or the machine has crashed since |
| A clear interrupted by a crash leaves a prefix of the log | FileLogs.InterruptedClearLeavesAGap: the removals (internal/storage/files_native.go:150-165) are synced once, at the end | Storage.ClearingExactly and FileLogs.FileLog.Clear: at each point it does if and only if at most one record's removal is not yet synced; without a crash it always does |
| Selection finds coins whenever some of them would do | CoinSelection.GreedyCanMiss: coins 7, 6 and 4 for 10, with change from 8 to 100 admitted (internal/wallet/funding.go:133-157) | CoinSelection.SelectFunding: it does if and only if some point of the one pass over the ordered coins suffices (GreedyFinds); when no coin overshoots, if and only if some prefix does (CoinSelection.GreedyIsPrefixes) |
| A bet is funded only if it is on offer | An opening input that raises to 0 is funded and builds, although the least raise on offer is minBet (internal/game/hand_decide.go:142-203) | Choices.OpeningOfferIsExact: a raise is funded if and only if it is on offer or raises to 0; while betting, exactly the offered bets build (Choices.OffersAreExact) |
| A spend the programs accept can be read by the clients | Programs.ForeignPacketPasses: any accepted spend with one more packet of another kind | Programs.AcceptedIsReadable: it can if and only if it carries no packet of another kind (internal/covenant/packets.go:235-257) |
| Decoding refuses no verified share (internal/game/cards.go:157-198) | FalseShares.VerifiedShareIsRefused: two shares of a proper deal verify, one of them false, and their sum leaves a card that is none of the deck's | KnownCards.DecodesWhereTheyLand: on a proper deal verified shares decode if and only if what they miss of the true sums moves every known card onto a card of its own, as true shares do (KnownCards.TrueSharesLand); a false share's proof answers one challenge only (KnownCards.FalseShareAnswersOnce) |
| What the saved-spend field decoder reads is what the encoder writes (internal/game/hand_codec.go:301-404) | SavedWork.FieldDecoderIsLenient: an action of no known kind, a bet that is neither check, call nor raise, and bundles that do not parse | SavedWork.SavedSpendCodec: it is if and only if the kind is known, the bet fits and the bundles parse; the comparison of re-encoded bytes that every event's decoding ends with refuses the rest |

## Left out

- Machine: stack items are typed as numbers and byte strings, where the emulator keeps bytes and reads them as script numbers; script-number size limits and the encoding of branches as bytes are not part of this model.
- Machine: the curve, hash and tree opcodes of a share proof, a dealt card and a rank proof are summarised as one opcode each, standing for an ideal check.
- Programs.EveryProgramIsItsBuilder: the coins that fund an accepted spend are those the chain shows, so the builder's funding is existential; wallet signatures, checkpoints, tapscript leaves and their control blocks are not part of this model.
- TerminalPrograms.ConcessionProgramIsConcession: assumes that the first input's value is money, as the ledger guarantees.
- TerminalPrograms.TimeoutProgramIsTimeout: assumes the same.
- Groups: points are their discrete logarithms and scalars are integers up to the group order, so nothing about hiding or the hardness of logarithms is stated.
- AcceptedTrees.AcceptedTreeIsAShuffleOrCollides: states what a tree of accepted answers gives away; how often a prover can be made to answer again, and that colliding openings are hard to find, are not part of this model.
- Deal.ProveOwnership: only completeness; that two answers give away the key is immediate in a model whose points are their logarithms.
- KnownCards.WholeAdmissionRefinesBuilders: inputs are named by opaque outpoints; the script of each checkpoint, and which spending path's program it must commit to (internal/game/admission.go:180-203), are not part of this model.
- Admission.AdmitSpend: outputs carry amounts only; that they pay the covenant's and the wallet's scripts is left to the transaction builder.
- Reducer: the verdicts of share checks, card decoding and showdown evaluation are functions of the environment there; KnownCards models the decoding and evaluation themselves, on the reveals.
- Reducer: wallet sources inside a saved spend, the completed table kept for display, and which cards are shown to whom are not part of this model.
- Events: the event codec is a premise (EventCodec: decoding and encoding are inverse); of its parts the saved spend's is modelled (SavedWork).
- SetupRules: session secrets appear by their public parts; wallet-ownership signatures and key proofs are verdicts of the environment.
- Messages.ContextBinds: binding is stated for inputs the hash tells apart, as are Agreements.SetupAgreement and Journal.HeadPinsHistory.
- SavedWork.CarriedAlike: one implication only, because the reducer's spend carries no wallet sources and so may be equal where the bytes differ.
- Merkle.Generate: the rank table (every five cards have a rank from 1 to 7462) and the embedded cache are premises (TableTotal, Committed); their contents are not part of this model.
- Merkle.RankIsBound: assumes hashes without collisions (Ideal).
- Ranking: `Describe`'s hand names and the construction of the rank table are not part of this model.
- CoinSelection.SelectFunding: the library sort is an insertion sort here; which order it gives is fixed by the comparison alone (CoinSelection.OrderedOnce).
- FileLogs: I/O errors enter as parameters that say at which step one strikes; lock files, permissions, directory creation, clearing all wallets and the browser's storage are not part of this model.
- Storage: a crash brings back each directory entry as some version since the last sync had it, and unsynced file contents as anything; other faults of a disk are not part of this model.
- Recovery.Driver.Recover: indexer answers are a list of rounds, each with the evidence it brings; connecting, timing and back-off are not part of this model.
- Transport.Transport.Use: carriers arrive as a list of frames; publishing, acknowledgements, relay framing and signatures are verdicts or not part of this model.
- Cancellation: contexts that expire in the middle of pure work are not part of this model; where cancellation is a branch of the program (appending, loading) it is a parameter.
- The user interfaces, the indexer client, the wallet's balance and PSBT handling, policy fetching, diagnostics and the regression network are not part of this model: they would add input and output, or easy members.
