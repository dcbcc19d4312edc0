# ezbeq in Dafny

A model of the parts of ezbeq that are hardest to get right, and proofs about them. ezbeq turns the filters of a catalogue entry into
device state and keeps its own record of what each device holds.

| files | what they model |
|---|---|
| `MinidspDevice`, `MinidspCommands`, `MinidspBiquads`, `MinidspController`, `MinidspTheorems`, `MinidspLayouts`, `MinidspRoutes`, `MinidspModels`, `MinidspTitles` | the minidsp hardware as four presets, the slot allocator and command compilers, the controller that switches preset before it writes, the record it keeps, the layouts that are shipped, and what operations leave on each biquad and channel |
| `CamillaConfig`, `CamillaTheorems`, `CamillaReload`, `CamillaGains`, `CamillaReadback`, `CamillaProtocol`, `CamillaProtocolTheorems`, `CamillaUpdates`, `CamillaContents` | rewriting a CamillaDSP configuration for an entry or for gains, reading levels back out of one, and the get/modify/set exchange around both, with the updates that never end; and what the filters written hold, value by value |
| `JRiverXml`, `JRiverDsp`, `JRiverLoad`, `JRiverTheorems`, `JRiverRoundTrip`, `JRiverContents` | the token text of a JRiver PEQ block: printing and parsing filters, removing BEQ blocks, loading and clearing, and what a load writes, token by token |
| `Composite`, `CompositeTheorems`, `Validation`, `Startup`, `StartupCalls` | fanning one command out to several devices in parallel, and the start-up check of composite devices |
| `StateSockets`, `StateSocketTheorems` | the reconnecting state socket of the mobile client, its two timers and its sockets |
| `Biquads`, `FilterResponse` | the three filter designs over the reals, and their response at every frequency |
| `FilterLines`, `FilterText`, `FilterTextContents` | filter text, the list of shared dicts it is parsed into, and what loading it does to a minidsp |
| `Catalogue`, `Episodes` | chunked streaming of the catalogue to a client, and episode lists printed as ranges |
| `Common`, `Text` | options, results, maps; decimal numbers and separated lists |

Every induction is written out: the lemmas carry `{:induction false}`.

What an operation leaves behind is also stated without the functions that compute it: address by address in `MinidspRoutes`, `MinidspModels`
and `FilterTextContents`, value by value in `CamillaContents`, token by token in `JRiverContents`, and at every frequency in
`FilterResponse`.

Code that changes state in the source is a class or a method with loops here, each proved against a specification function; the theorems are
about those functions and about whole runs. Where a property that the code suggests does not hold of it, the exact condition under which it
does is proved:

* a minidsp load leaves every filter in place exactly when no two of its slots clash, which all shipped layouts rule out and a custom one
  need not;
* the minidsp record follows a clear exactly on layouts all of whose recorded inputs take BEQ, and a gain for all channels exactly with at
  most two of them;
* the last CamillaDSP load wins exactly when both entries have the same number of filters once padded to ten;
* a CamillaDSP gain is in its chain once afterwards exactly when it was absent, or present once and in the channel's own stage;
* a JRiver load over a load is the second one alone exactly when the count token, once BEQ is removed, was right;
* the length header of a JRiver filter is the length sent exactly when no item holds a line feed and there is an item;
* a CamillaDSP load, answered well throughout, comes to an end exactly when every gain filter the device's pipeline names is there with its
  values, and a gain update under a condition on the device, the request and the levels shown; otherwise it stalls for ever;
* once gains are set on a CamillaDSP configuration that can be read, a channel shows what was asked for exactly under a condition on the
  last gains of its chain before and on the place where its own goes;
* a gain set after a load that brought it is in its chain twice exactly when the user had made a stage for that channel alone;
* a minidsp load that breaks off leaves record and device in agreement exactly when the device reached the slot's preset;
* a composite's member shows what it last reported exactly when the object it handed over has not changed since: the source holds live
  objects, so a failed load shows although no read after it was answered;
* a composite's shown slot stands for the same slot in a command exactly when the slot map does not redirect it away;
* a mapped composite with a list of members never starts, although the check lets it through when partial gain is allowed.

## Model

| member | source | states |
|---|---|---|
| MinidspDevice.ExecAllOnPreset | ezbeq/minidsp.py:827-859 | Any list of biquad, bypass, gain and mute commands changes the active preset of a device and nothing else on it. |
| MinidspDevice.PrintedGainIsClose | ezbeq/minidsp.py:1125-1148 | A gain printed with two decimals is within half a hundredth of the gain, and printing it again changes nothing. |
| MinidspDevice.PrintedGainIsNearest | ezbeq/minidsp.py:1125-1148 | It is printed as the nearest hundredth, the even one of two that are as near. |
| MinidspDevice.PrintedGainStaysInRange | ezbeq/minidsp.py:1134-1148 | A gain the range check lets through is still in range once rounded for printing. |
| MinidspCommands.BeqFilterAllocator.constructor | ezbeq/minidsp.py:363-374 | The allocator lists the slots of every route that takes BEQ, in route order, by index and then by crossover group. |
| MinidspCommands.BeqFilterAllocator.Pop | ezbeq/minidsp.py:376-379 | pop takes the first slot left, or nothing when there is none. |
| MinidspCommands.DesignAll | ezbeq/minidsp.py:1034-1062 | The coefficients of all filters of an entry, or the error of the first one that has none. |
| MinidspCommands.FirstErrorWins | ezbeq/minidsp.py:1034-1062 | Once a filter has no usable coefficients, what follows it makes no difference. |
| MinidspCommands.GenerateFilt | ezbeq/minidsp.py:1057-1084 | The command list built by popping slots is the compiled one: each filter pushed to the next slot, every slot left over bypassed, or the error for an unknown type, a wrong count or too few slots. |
| MinidspCommands.OwnerIsLast | ezbeq/minidsp.py:1057-1084 | The slot that decides an address is the last one that lists it. |
| MinidspCommands.CompiledSettles | ezbeq/minidsp.py:1057-1100 | Applying the compiled commands to a preset, one by one, has the same effect as settling its slots in turn. |
| MinidspCommands.LastOwnerDecides | ezbeq/minidsp.py:1057-1100 | After a load every biquad is as its last owner says; a biquad of no slot, every gain and every mute is untouched. |
| MinidspCommands.LoadIsCorrectIffNoClash | ezbeq/minidsp.py:363-379 | Filter k is un-bypassed with its coefficients on every channel of slot k and all other slots are bypassed, whatever the preset held, if and only if no two slots clash. |
| MinidspController.MinidspSlotState.SetGain | ezbeq/minidsp.py:231-238 | A known channel, or all of them, gets the gain and no other; an unknown one raises and changes nothing. |
| MinidspController.MinidspSlotState.SetMute | ezbeq/minidsp.py:252-259 | The same for mutes. |
| MinidspController.MinidspSlotState.Empty | ezbeq/minidsp.py:146-151 | Emptying a slot unmutes every channel, zeroes every gain and forgets title and author. |
| MinidspController.MinidspState.Activate | ezbeq/minidsp.py:124-128 | Exactly the named slot is active afterwards, and nothing else in the record changes. |
| MinidspController.MinidspState.Load | ezbeq/minidsp.py:137-141 | The slot shows the title and author and is active; gains and mutes stay. |
| MinidspController.MinidspState.LoadCustom | ezbeq/minidsp.py:700-705 | Biquads for inputs are shown as a custom filter; others only make the slot active. |
| MinidspController.MinidspState.Clear | ezbeq/minidsp.py:146-152 | The slot is empty, all its gains zero and unmuted, and it is active. |
| MinidspController.MinidspState.Gain | ezbeq/minidsp.py:160-165 | Without a slot the master volume is set, otherwise the slot's gains and the slot becomes active; a slot or channel the record does not have raises and changes nothing. |
| MinidspController.MinidspState.ToggleMute | ezbeq/minidsp.py:167-176 | The same for mutes. |
| MinidspController.ClearLevels | ezbeq/minidsp.py:744-769 | A clear resets the levels of every input channel the allocator names, each the first time it is met. |
| MinidspController.Minidsp.RunFile | ezbeq/minidsp.py:845-859 | A run of the executable applies its commands in order; one that fails has applied a prefix of them. |
| MinidspController.Minidsp.DoRun | ezbeq/minidsp.py:827-859 | Whether or not the status could be read, and with or without a delay after switching, a successful send applies the commands to the target preset; a failed one breaks off on the way there. |
| MinidspController.Minidsp.SendCommands | ezbeq/minidsp.py:676-678 | The same for the commands of an operation, with the slot it is meant for. |
| MinidspController.Minidsp.ActivateSlot | ezbeq/minidsp.py:680-692 | Activating switches device and record together, or rejects the slot and changes neither; after a failed send the record is what it was. |
| MinidspController.Minidsp.SendOrNote | ezbeq/minidsp.py:735-740 | A load or clear that could not be sent leaves the slot marked as an error and active in the record; one that was sent has run all its commands on the slot's preset. |
| MinidspController.Minidsp.LoadBeq | ezbeq/minidsp.py:729-742 | A load writes the compiled commands to the slot's preset and records the title; an entry that cannot be compiled sends nothing. |
| MinidspController.Minidsp.ClearBeq | ezbeq/minidsp.py:744-769 | A clear writes the clearing commands to the slot's preset and empties the record's slot. |
| MinidspController.Minidsp.DoLoadBiquads | ezbeq/minidsp.py:694-710 | Biquads are written to the slot's preset and recorded; a failed send is recorded as an error. |
| MinidspController.Minidsp.DoMute | ezbeq/minidsp.py:771-786 | A mute is sent and then recorded, for the master or for the channels of a slot. |
| MinidspController.Minidsp.DoGain | ezbeq/minidsp.py:788-795 | A gain in range is sent, whatever the slot, and then recorded if the record has the slot and channel; one out of range is rejected and nothing is sent. |
| MinidspTheorems.LoadIsIsolated | ezbeq/minidsp.py:729-742 | From any device, a successful load makes the slot's preset active and changes no other preset, no level and no biquad outside the slots; the entry holds if and only if its slots do not clash. |
| MinidspTheorems.LoadsEveryEntryIffSeparate | ezbeq/minidsp.py:363-379 | Every entry that compiles for a layout is held after a load on every device exactly if no two allocator slots of the layout share a biquad. |
| MinidspTheorems.InterruptedLoadIsIsolated | ezbeq/minidsp.py:827-859 | A load, clear or loading of biquads that breaks off has touched no preset but its own. |
| MinidspTheorems.ClearResetsEachInputOnce | ezbeq/minidsp.py:744-769 | A clear sends one unmute and one zero gain for every input channel that takes BEQ, and none for any other. |
| MinidspTheorems.ClearIsIsolated | ezbeq/minidsp.py:744-769 | A clear bypasses every slot's biquads, resets the BEQ inputs' levels, and leaves coefficients, other levels and other presets alone. |
| MinidspTheorems.LastOperationDecides | ezbeq/minidsp.py:729-769 | One load or clear fixes which slot biquads of its preset are live and with which coefficients, from any two devices. |
| MinidspTheorems.OtherOperationSounds | ezbeq/minidsp.py:680-795 | Whatever writes biquads of other slots, and activations, gains and mutes, leave a slot's BEQ as it was. |
| MinidspTheorems.HistoryIsForgotten | ezbeq/minidsp.py:680-795 | Wherever a run loads or clears a slot, with no biquads written to it later, the slot's BEQ ends as that operation alone leaves it on any other device, whatever came before and whatever else follows. |
| MinidspTheorems.RecordSimulatesDevice | ezbeq/minidsp.py:124-184 | Over every run of successful operations, loading of biquads among them, the active slot, master section, and gains and mutes of the record agree with the device, up to the rounding of printed gains. |
| MinidspTheorems.FailedSendAgreesIff | ezbeq/minidsp.py:676-795 | After a send that broke off, record and device still agree exactly if the device is on the preset the record then shows and no level moved. |
| MinidspTheorems.FailedLoadAgreesIff | ezbeq/minidsp.py:694-742 | After a load that broke off, they agree exactly if the device was switched to the slot or was there already. |
| MinidspTheorems.FailedActivationAgreesIff | ezbeq/minidsp.py:680-687 | After an activation that broke off, they agree exactly if it left the device where it was. |
| MinidspTheorems.UniformAgrees | ezbeq/minidsp.py:102-118 | A device and a record with one level everywhere agree, so such runs exist. |
| MinidspTheorems.ClearFollowedIffInputsCovered | ezbeq/minidsp.py:146-152 | A clear keeps record and device together from every start exactly when all recorded inputs take BEQ. |
| MinidspTheorems.GainForAllFollowedIffTwoInputs | ezbeq/minidsp.py:1125-1143 | A gain for all channels of a slot keeps them together exactly when at most two are recorded, because only two are sent. |
| MinidspRoutes.SentIff | ezbeq/minidsp.py:673-795 | An operation is sent exactly if its slot is from 1 to 4, its gain from -72 to 12 dB, or from -127 to 0 for the master, and its entry has no more filters than the routes have slots, each with five coefficients; a gain is sent whatever its slot. |
| MinidspRoutes.LoadFillsRoute | ezbeq/minidsp.py:1057-1100 | On a layout with separate slots, filter n of an entry is live on the biquad its route, index and group give it, on each channel of the route, with the coefficients the entry has for the sample rate or else those designed for it; past the last filter the biquads are bypassed. |
| MinidspRoutes.LoadKeepsOtherBiquads | ezbeq/minidsp.py:1057-1084 | Every biquad that belongs to no route keeps its coefficients and its bypass. |
| MinidspRoutes.LoadFillsInputs | ezbeq/minidsp.py:1087-1100 | On the inputs of a layout of the shipped shape, index k of each channel shows filter k. |
| MinidspRoutes.LoadFillsOutputs | ezbeq/minidsp.py:1087-1100 | Its outputs show the filters that follow those of the inputs and crossovers. |
| MinidspRoutes.LoadFillsCrossovers | ezbeq/minidsp.py:1087-1100 | Its crossovers, printed on the output side with their group, show the filters that follow those of the inputs, by index and then by group. |
| MinidspRoutes.ClearBypassesRoutes | ezbeq/minidsp.py:744-769 | A clear bypasses every biquad of every route and keeps its coefficients. |
| MinidspRoutes.ClearKeepsOtherBiquads | ezbeq/minidsp.py:744-769 | It leaves every other biquad as it was. |
| MinidspRoutes.ClearResetsInputs | ezbeq/minidsp.py:744-769 | The inputs that take BEQ end at 0 dB and open, and every other level is kept. |
| MinidspRoutes.BiquadsReachChannels | ezbeq/minidsp.py:1005-1022 | Biquads for channels counted from 1 reach the places of these inputs and outputs from index 0 on; with overwrite the places up to the tenth without one are bypassed; nothing else moves. |
| MinidspRoutes.GainReachesChannel | ezbeq/minidsp.py:1125-1143 | A gain within -72 and 12 dB sets exactly that input of the slot's preset, rounded to two decimals; any other is refused. |
| MinidspRoutes.GainReachesFirstTwo | ezbeq/minidsp.py:1125-1143 | A gain for all channels of a slot sets exactly its first two inputs. |
| MinidspRoutes.MuteReachesChannel | ezbeq/minidsp.py:1103-1123 | A mute sets exactly that input of the slot's preset. |
| MinidspRoutes.MuteReachesFirstTwo | ezbeq/minidsp.py:1103-1123 | A mute for all channels sets exactly the first two. |
| MinidspRoutes.MasterIsSet | ezbeq/minidsp.py:1144-1148 | Without a slot exactly the master volume or mute is set, a volume only from -127 to 0. |
| MinidspTitles.OutcomeIsAttempted | ezbeq/minidsp.py:694-795 | However an operation ends, the record is the one after that attempt. |
| MinidspTitles.LastTitleIsShown | ezbeq/minidsp.py:137-158 | After any run, failures included, a slot shows what the last attempt that left a title in it left: the title and author of a load, "Empty" after a clear, "CUSTOM" after biquads for inputs, "ERROR" after one that could not be sent. |
| MinidspLayouts.TidyRouteSeparates | ezbeq/minidsp.py:326-374 | A route with distinct indexes, and more than one group only on a crossover, has slots that share no address. |
| MinidspLayouts.ShippedLayoutsAreSeparate | ezbeq/minidsp.py:421-525 | No shipped layout, with any of its options, has two slots that share an address. |
| MinidspLayouts.LoadIsCorrectOnShippedLayouts | ezbeq/minidsp.py:421-525 | On every shipped layout every entry that compiles is held after a load, on any device and in any slot. |
| MinidspLayouts.GroupedOutputLosesFilter | ezbeq/minidsp.py:556-571 | A custom layout with groups on its output route loses an entry of one filter: the second slot bypasses the biquad the first one set. |
| MinidspLayouts.ShippedLayoutsFollowClears | ezbeq/minidsp.py:421-525 | The record follows clears on every shipped layout except an HTx using inputs that are not its first ones. |
| MinidspModels.LoadOnShippedModel | ezbeq/minidsp.py:425-525 | After a load on any supported model, each biquad of its BEQ places, side, channel, group and index written out, shows its filter for the model's sample rate, and every other biquad is as it was. |
| MinidspModels.ClearOnShippedModel | ezbeq/minidsp.py:744-769 | A clear on any supported model bypasses exactly those biquads. |
| CamillaConfig.NamesDiffer | ezbeq/camilladsp.py:596-611 | The names ezbeq gives its gain and BEQ filters never collide, within a kind or across. |
| CamillaConfig.UpdateGains | ezbeq/camilladsp.py:596-607 | Every BEQ channel gets its gain filter, and an existing one keeps the rest of its settings. |
| CamillaConfig.UpdateBeqs | ezbeq/camilladsp.py:609-631 | Every padded filter of the entry is written under its name. |
| CamillaConfig.Scan | ezbeq/camilladsp.py:636-646 | The scan of the pipeline collects exactly the channels whose gain filter is there and the BEQ names each channel carries. |
| CamillaConfig.ExtendPipeline | ezbeq/camilladsp.py:633-683 | The loops append the gain stages that are missing and then one stage for each group of missing names. |
| CamillaConfig.CreateCfgForEntry | ezbeq/camilladsp.py:578-683 | The loops together give the new configuration that the theorems on a load are about, from the entry, the old configuration and the channels. |
| CamillaTheorems.EntryFilterAt | ezbeq/camilladsp.py:587-631 | After a load each filter is the entry's, a gain's, or the one that was there before. |
| CamillaTheorems.CarriesIffInChain | ezbeq/camilladsp.py:638-646 | A channel carries a name exactly when the chain of names it passes through lists it. |
| CamillaTheorems.LoadExtendsChains | ezbeq/camilladsp.py:633-683 | The old pipeline is a prefix of the new one, and each channel's chain grows by exactly its missing gain and then its missing names; chains of other channels stay. |
| CamillaTheorems.SortedPermutes | ezbeq/camilladsp.py:661-668 | Sorting the missing names keeps each as often as it was. |
| CamillaTheorems.EachBeqFilterOnce | ezbeq/camilladsp.py:633-683 | After a load every BEQ name is on every BEQ channel: once if the channel lacked it, otherwise as often as before. |
| CamillaTheorems.AppendedStagesPartition | ezbeq/camilladsp.py:660-681 | There are as many appended BEQ stages as distinct non-empty sets of missing names, and they list every channel that misses some in exactly one of them. |
| CamillaContents.LoadWritesEntry | ezbeq/camilladsp.py:587-631 | After a load BEQ_i has the frequency, q and gain of filter i of the entry and the type its kind stands for, whatever its case; the rest of the ten, and all ten after a clear, have gain 0. |
| CamillaContents.LoadDescribesFilters | ezbeq/camilladsp.py:591-631 | They are described by the entry's digest and title and have no other parameters; a filter that was there keeps its type and whatever else it has, a new one is a plain biquad. |
| CamillaContents.LoadWritesGains | ezbeq/camilladsp.py:596-607 | Each BEQ channel's gain filter has the gain and mute of the load and keeps its other values, its type, description and whatever else it has; a new one is of type Gain. |
| CamillaContents.LoadKeepsOtherFilters | ezbeq/camilladsp.py:593-631 | A filter of any other name, and the rest of the configuration, is as it was; the BEQ names are as many as the entry's filters, and at least ten. |
| CamillaContents.LoadCompletesChains | ezbeq/camilladsp.py:633-683 | Each BEQ channel's chain gains each of these names it lacked, once, and no other; other channels gain nothing, and the old pipeline comes first. |
| CamillaContents.LessIff | ezbeq/camilladsp.py:661-668 | Names are ordered by the first character that differs, a prefix first. |
| CamillaContents.SortedIsInOrder | ezbeq/camilladsp.py:661-668 | The names a channel lacks are listed in that order. |
| CamillaReload.PipelineStopsGrowing | ezbeq/camilladsp.py:633-683 | A second load of the same names leaves the pipeline as the first did. |
| CamillaReload.ReloadForgets | ezbeq/camilladsp.py:578-683 | A load over a load is the second load alone, on any configuration, when both have as many filters once padded to ten; a clear is one of them. |
| CamillaReload.LastLoadWinsIffSameLength | ezbeq/camilladsp.py:578-683 | That holds on every configuration exactly when the padded numbers of filters are equal. |
| CamillaGains.CreateCfgForGains | ezbeq/camilladsp.py:696-753 | The loops give the configuration the specification describes, or raise where there is no pipeline to change. |
| CamillaGains.OwnNamesAreRecognised | ezbeq/camilladsp.py:738-746 | The pattern that looks for BEQ filters recognises every name ezbeq writes. |
| CamillaContents.RecognisedIff | ezbeq/camilladsp.py:20 | It recognises exactly `BEQ_Gain_` and digits, or `BEQ_` and digits, with an underscore and letters or digits after them or nothing. |
| CamillaGains.GainGoesFirst | ezbeq/camilladsp.py:738-750 | A gain that is newly inserted stands ahead of every BEQ name of its stage and moves no other name. |
| CamillaGains.WithGainChain | ezbeq/camilladsp.py:722-750 | One change leaves the chains of other channels alone, and adds its gain once to its own unless its stage has it. |
| CamillaGains.ChangedChain | ezbeq/camilladsp.py:696-753 | The same for all changes of a request together. |
| CamillaGains.GainOnceIff | ezbeq/camilladsp.py:696-753 | Afterwards a requested channel carries its gain exactly once if and only if it carried none, or one and that in the first stage for it alone. |
| CamillaGains.SharedStageGainsTwice | tests/multi3_existing_gain.yaml:60-65 | With the gains of two channels in a stage for both, a gain change on one of them applies its gain filter twice. |
| CamillaGains.GainAfterLoadOnceIff | ezbeq/camilladsp.py:633-753 | When gains are set after a load that brought a channel its gain, the channel carries it once exactly if it had no stage of its own before the load, and twice otherwise. |
| CamillaGains.ChangedChainSplits | ezbeq/camilladsp.py:722-750 | Whatever else is asked for, a gain that its channel's own stage lacks goes into the channel's chain ahead of the first recognised name of that stage, or at the end. |
| CamillaGains.ChangedFilterAt | ezbeq/camilladsp.py:702-720 | Exactly the gain filters requested change, each as requested. |
| CamillaContents.GainsAreWritten | ezbeq/camilladsp.py:702-720 | The gain filter of a requested channel has the gain and mute asked for and keeps every other value and its type; a new one has 0 dB and no mute where nothing else is asked for. |
| CamillaContents.GainsDescribeFilters | ezbeq/camilladsp.py:702-720 | It keeps its description and whatever else it has; a new one is described as ezbeq's. |
| CamillaContents.OtherFiltersAreKept | ezbeq/camilladsp.py:702-720 | Every other filter, and the rest of the configuration, is as it was. |
| CamillaContents.GainsKeepEntry | ezbeq/camilladsp.py:696-753 | So changing gains leaves an entry's filters in place, and flat ones flat. |
| CamillaGains.GainsAreIdempotent | ezbeq/camilladsp.py:696-753 | Setting the same gains twice is setting them once. |
| CamillaReadback.ShowLevels | ezbeq/camilladsp.py:99-126 | The setter's loops compute the levels the specification describes, or raise as the source does for a gain filter without its values. |
| CamillaReadback.LastGainIsShown | ezbeq/camilladsp.py:99-126 | Each channel shows the values of the last gain filter in its chain, or its default if there is none. |
| CamillaReadback.NamesThatCount | ezbeq/camilladsp.py:108-122 | A filter counts as a gain exactly if its type is Gain and its name starts with `BEQ_Gain`, whatever follows; without one a channel shows 0 dB and no mute. |
| CamillaReadback.CanBeReadIff | ezbeq/camilladsp.py:99-126 | Once gains are set, the setter can show levels exactly if every gain filter the base pipeline names is there and readable with the request in place, and each requested one has, or is given, both its values. |
| CamillaReadback.RequestedLevelsAreShownIff | ezbeq/camilladsp.py:99-126 | A requested channel shows exactly what was asked for if and only if, in the base configuration, the last name of its chain that will count as a gain decides so; or, where its gain is to be inserted, the last such name behind the place, else its own if new or of type Gain, else the last one ahead. |
| CamillaReadback.OwnRequestIsLast | ezbeq/camilladsp.py:696-753 | With no other gain filter in the chain, and its own one of type Gain if there was one, the channel's own filter counts last and has the levels asked for. |
| CamillaReadback.RequestedLevelsAreShown | ezbeq/camilladsp.py:99-126 | So in that case a requested channel shows exactly the gain and mute asked for. |
| CamillaProtocol.CamillaDsp.RequestUpdate | ezbeq/camilladsp.py:256-281 | A request starts an exchange and asks for the configuration if none is in progress, and otherwise is rejected with no message. |
| CamillaProtocol.CamillaDsp.RunCallback | ezbeq/camilladsp.py:315-343 | The callback shows the outcome of a load, or of gains, in the record. |
| CamillaProtocol.CamillaDsp.Adopt | ezbeq/camilladsp.py:99-126 | A configuration that was read or written becomes current and its levels are shown. |
| CamillaProtocol.CamillaDsp.OnGetConfig | ezbeq/camilladsp.py:390-405 | A configuration that arrives is adopted, and answered by the changed one if an update waits for it. |
| CamillaProtocol.CamillaDsp.OnSetConfig | ezbeq/camilladsp.py:407-418 | The answer to a written configuration completes the update, successfully or not. |
| CamillaProtocolTheorems.StepKeeps | ezbeq/camilladsp.py:756-804 | Every event, a request, the server answering or a reply arriving, keeps the invariant of the exchange. |
| CamillaProtocolTheorems.RunKeeps | ezbeq/camilladsp.py:756-804 | So it holds after every run from a quiescent start. |
| CamillaProtocolTheorems.ExchangeIsSafe | ezbeq/camilladsp.py:242-281 | After any run at most one message is anywhere, a configuration about to be applied was made from the one the device still holds, each accepted update completes at most once, and a label naming an entry loaded in the run is right about the device. |
| CamillaProtocolTheorems.SecondRequestIsRejected | ezbeq/camilladsp.py:256-281 | While an update is in progress another request sends nothing and changes nothing but the label. |
| CamillaProtocolTheorems.StalledForEver | ezbeq/camilladsp.py:256-281 | From a stalled update on, every request is refused and no message is sent again. |
| CamillaUpdates.LoadStaysReadable | ezbeq/camilladsp.py:578-683 | A configuration whose gains can be read is one whose gains can be read after a load. |
| CamillaUpdates.ShowGainsIff | ezbeq/camilladsp.py:315-343 | The callback of a gain update raises exactly if a channel it changes shows no level. |
| CamillaUpdates.ExchangeIsRun | ezbeq/camilladsp.py:390-418 | A request with its two answers is a run of five events. |
| CamillaUpdates.LoadEndsIff | ezbeq/camilladsp.py:242-418 | From rest, a load or clear comes to an end exactly if the server refuses to hand out its configuration, or every gain filter named in the device's pipeline is there and has its values. |
| CamillaUpdates.GainEndsIff | ezbeq/camilladsp.py:242-418 | From rest, a gain update on known channels comes to an end exactly if the server refuses to hand out its configuration; or that configuration is readable with a pipeline in it, and, unless the server refuses the new one, each requested gain filter has or is given both its values and, where the pipeline is empty, each channel shows a level already. |
| CamillaUpdates.CallbackShows | ezbeq/camilladsp.py:315-343 | A callback that went well shows, after a load or clear, every channel at its gain and open; after a change of gains, each channel asked for with the parts asked for and all else as it was. |
| CamillaUpdates.FirstAnswer | ezbeq/camilladsp.py:390-405 | The first answer of an update, if it is good and can be read, is shown and leads to the second message, which holds the changed configuration. |
| CamillaUpdates.RefusedLoadShowsError | ezbeq/camilladsp.py:315-334 | A load refused at once shows the error and leaves the device as it was. |
| CamillaUpdates.FailedLoadShowsError | ezbeq/camilladsp.py:315-334 | So does one whose new configuration is refused. |
| CamillaUpdates.LoadEndsWell | ezbeq/camilladsp.py:315-334 | A load answered well ends with its entry's name on a device that holds its filters, a clear with "Empty" on a device whose ten filters are flat; the levels shown are the device's. |
| CamillaUpdates.LoadShowsGain | ezbeq/camilladsp.py:99-126 | Each channel then shows the gain of the load and no mute, if its chain names no other gain filter and its own was new or of type Gain. |
| CamillaUpdates.GainEndsWell | ezbeq/camilladsp.py:315-343 | A gain update answered well ends with the changed configuration on the device, its levels shown, and the label as it was. |
| CamillaUpdates.OrphanStallsForEver | ezbeq/camilladsp.py:99-126 | On a device whose pipeline names a gain filter that is not there, any load stalls for ever although every message is answered well. |
| JRiverXml.CrLfLength | ezbeq/jriver.py:510-514 | Turning line feeds into CR LF lengthens a text by their number. |
| JRiverXml.HeaderIsLengthIff | ezbeq/jriver.py:305-320 | The length header equals the length of what is sent exactly when there is an item and no item holds a line feed. |
| JRiverContents.TokenIs | ezbeq/jriver.py:305-320 | The text of a filter, literally: an element with one line for each value, behind the number of characters sent for it. |
| JRiverContents.CountTokenIs | ezbeq/jriver.py:340-346 | The count token is the count behind the number of its digits. |
| JRiverXml.PrintedFilterParses | ezbeq/jriver.py:580-591 | The items of a printed filter are found again, all of them and in order. |
| JRiverXml.ValuesRead | ezbeq/jriver.py:580-591 | Each value is read as printed, except that an empty one is none, and Enabled is 0 or 1: 1 if it was anything but 0. |
| JRiverXml.DictReadsBackIff | ezbeq/jriver.py:580-591 | A printed filter reads back as the dictionary it was printed from exactly if no value is empty and Enabled was printed as 0 or 1. |
| JRiverDsp.FragmentsOfConcat | ezbeq/jriver.py:363-364 | A text put together from tokens splits into the same tokens. |
| JRiverDsp.HeaderReads | ezbeq/jriver.py:323-356 | The count token that is written reads back as the count. |
| JRiverDsp.SplitTokens | ezbeq/jriver.py:363-367 | The split closes every piece with the parenthesis it lost and drops empty ones. |
| JRiverDsp.FindBlock | ezbeq/jriver.py:368-383 | The scan finds the indexes of the first START and END, or raises where their names differ. |
| JRiverDsp.RemoveBeqFilter | ezbeq/jriver.py:359-400 | One removal gives the text the specification describes, nothing when there is no block, or the error the source raises. |
| JRiverDsp.RemovalShrinks | ezbeq/jriver.py:359-400 | Removing a block from any text at all leaves at least two tokens fewer. |
| JRiverDsp.RemoveAllBeq | ezbeq/jriver.py:143-152 | The loop, whose `tries` never changes, ends, and gives what removing blocks until none is left gives. |
| JRiverLoad.ConvertFilters | ezbeq/jriver.py:182-197 | The comprehension over the catalogue filters gives the groups of filters described, or raises where it meets an unknown type. |
| JRiverLoad.IncludeFilters | ezbeq/jriver.py:323-356 | The count token is raised by the filters added and these follow all others, starting an empty text with its two tokens. |
| JRiverLoad.Zone.LoadFilter | ezbeq/jriver.py:123-137 | A load writes the text with the entry in place of any BEQ and shows its title, or raises and writes nothing. |
| JRiverLoad.Zone.ClearFilter | ezbeq/jriver.py:154-166 | A clear writes the text without BEQ and shows the slot empty, or raises and writes nothing. |
| JRiverTheorems.FiltersHaveTheirMarks | ezbeq/jriver.py:323-356 | Counting the opening marks in printed filters counts the filters. |
| JRiverTheorems.GroupsPrint | ezbeq/jriver.py:296-302 | The groups of an entry print to the tokens of their filters, and are counted as many. |
| JRiverTheorems.FirstBlock | ezbeq/jriver.py:368-389 | In a balanced text the scan finds a block, and what is left without it is balanced and keeps the same user filters. |
| JRiverTheorems.AllRemoved | ezbeq/jriver.py:143-152 | Removing all BEQ from a balanced text keeps exactly the filters outside the blocks, in order, and corrects the count if there was a block. |
| JRiverRoundTrip.LoadKeepsUserFilters | ezbeq/jriver.py:123-137 | A load leaves the user's filters in order, followed by the entry's block. |
| JRiverContents.LoadWritesEntry | ezbeq/jriver.py:180-240 | Read back, the tokens after the user's are a START mark with the title, then in order each catalogue filter as often as it counts, with Type 10, 11, 3 or 4 by its kind, its own gain, q and frequency, the target channels, enabled, and an END mark. |
| JRiverContents.ConvertedHeld | ezbeq/jriver.py:182-231 | Each catalogue filter becomes as many filters as it counts, one for a peak or a gain, and each of them reads back with its values. |
| JRiverContents.ConvertsIff | ezbeq/jriver.py:182-197 | An entry is written exactly if the kind of each of its filters is known. |
| JRiverRoundTrip.ClearUndoesLoad | ezbeq/jriver.py:154-166 | Clearing after a load gives the same user filters, in the same order, as clearing before it. |
| JRiverRoundTrip.LoadOverLoadIff | ezbeq/jriver.py:123-152 | A load over a load is the second load alone exactly when the count, once BEQ is removed, was right to begin with. |
| JRiverRoundTrip.CountStaysRight | ezbeq/jriver.py:323-356 | A count that is right stays the number of filters after any load. |
| Composite.BuildSpecs | ezbeq/composite.py:113-128 | Each member skips what its class cannot do and what it opted out of; overrides are read only in mapped mode, and slot maps only by members with several slots. |
| Composite.CompositeDevice.constructor | ezbeq/composite.py:221-222 | A composite starts with the state objects of the members that answer. |
| Composite.CompositeDevice.ReadAllStates | ezbeq/composite.py:194-214 | A read hands over the state objects of exactly the members that answer. |
| Composite.CompositeDevice.UpdateMembers | ezbeq/composite.py:56-59 | What was handed over replaces what was held of those members, and of no others. |
| Composite.CompositeDevice.FanOut | ezbeq/composite.py:159-192 | Every member that has not opted out gets its translated operation; after any schedule of their tasks the error lists what wait() found, and what is held is again what the whole run has handed over, whether or not there was an error. |
| Composite.CompositeDevice.ReadState | ezbeq/composite.py:228-231 | A request for the state reads every member once more; what is held is again what the whole run has handed over. |
| Composite.CompositeDevice.Submit | ezbeq/composite.py:171-175 | A task is submitted for every member that has not opted out, in order. |
| Composite.CompositeDevice.Replace | ezbeq/device.py:375-393 | A member that replaces its state object leaves the composite with the old one, as it was, until it answers again. |
| Composite.EarlierRounds | ezbeq/composite.py:56-59 | A later round changes nothing about what was held after the earlier ones. |
| Composite.CompositeDevice.CollectErrors | ezbeq/composite.py:176-187 | The errors are those of the futures not done or raised, in the order of the futures. |
| CompositeTheorems.MembersDoNotInterfere | ezbeq/composite.py:159-180 | A member's device and futures depend only on its own steps, whatever the other members do in between. |
| CompositeTheorems.ParticipantsAre | ezbeq/composite.py:172-176 | Exactly the members that have not opted out take part, each once. |
| CompositeTheorems.ParticipantGetsItsOperation | ezbeq/composite.py:159-188 | Whatever the interleaving and whoever fails, a participant whose future is done has the device its own translated operation alone gives, and its future raised exactly what that raises. |
| CompositeTheorems.OthersAreUntouched | ezbeq/composite.py:172-176 | The device of a member that opted out is left alone. |
| CompositeTheorems.ErrorsNameFailures | ezbeq/composite.py:179-192 | An error names a member exactly if one of its futures was not done in time or raised. |
| CompositeTheorems.FanOutNamesFailures | ezbeq/composite.py:159-192 | For a fan-out: exactly if the member's future was not done in time or its own operation alone raises. |
| CompositeTheorems.NoOneElseIsNamed | ezbeq/composite.py:159-192 | No member that did not take part is named. |
| CompositeTheorems.ErrorsAreOrdered | ezbeq/composite.py:176-191 | Members are named in the order of the configuration, each at most once. |
| CompositeTheorems.ObjectIsShown | ezbeq/composite.py:56-80 | After any run a member that last answered the k-th read shows the state it has now, reported or not; or the one it had when it replaced the object it handed over then. |
| CompositeTheorems.LastReportIsShownIff | ezbeq/composite.py:56-80 | It shows what it last reported exactly if that object did not change while it was the member's; in particular if the member was idle and every round until then spared it. |
| CompositeTheorems.FailedLoadShows | tests/test_composite_device.py:412-433 | A member that answered a read, then failed a load and the read after it, shows the error the load left and not what it last reported. |
| CompositeTheorems.NeverReadIsMissing | ezbeq/composite.py:194-231 | After any run a member is shown exactly if it ever answered a read. |
| CompositeTheorems.MemberShowsItsOperation | ezbeq/composite.py:159-219 | After any run that ends with a command, a participant that ever answered a read and has not replaced its object since shows, once its future is done, the device its own translated operation alone makes of the one it had, whether or not it answers the read that follows. |
| CompositeTheorems.TranslationKeepsOperation | ezbeq/composite.py:142-157 | A translated call is the same operation with everything it carries. Each channel is what the map gives for it, or itself where the map says nothing; the slot is the fixed one of a single-slot member, else what the last pair for it says, else itself. It raises exactly if a channel named maps to no integer. |
| CompositeTheorems.MappedChannelIsMuted | tests/test_composite_device.py:70-80 | A member whose map takes channel 1 to 3 mutes its third channel for the composite's first. |
| CompositeTheorems.ShownSlotRoundTripIff | ezbeq/composite.py:72-77 | A shown slot stands for the member's slot again in a command exactly if the map leads to that slot or does not redirect it. |
| CompositeTheorems.PartialMapRepeatsIds | ezbeq/composite.py:142-148 | The documented two-slot map on a device with more slots shows two slots under one id, and one of them cannot be addressed. |
| Validation.ValidateNoSilentPartialGain | ezbeq/device.py:254-280 | It passes a mapped composite exactly when each balance operation is supported by all members or none, or partial gain is allowed; what it reports is true. |
| Validation.CheckMembers | ezbeq/device.py:292-308 | Members must be known, no composites, and no member of anything seen so far; they are then marked as seen. |
| Validation.CheckMode | ezbeq/device.py:309-322 | Mirror members share a type; a mapped composite has a primary among its members and no partial gain. |
| Validation.ValidateCompositeConfigs | ezbeq/device.py:283-322 | Whatever order the set of composites is visited in, exactly the acceptable configurations pass, and the error reported of any other is true of it. |
| Validation.ExplainedIsWrong | ezbeq/device.py:283-322 | A configuration that an error is true of is not acceptable. |
| Startup.CreateDevices | ezbeq/device.py:325-347 | Start-up succeeds exactly for acceptable configurations of known types whose mapped composites have a dict of members, and returns every device in the order of the configuration. |
| Startup.SpecsFollowOverrides | ezbeq/composite.py:113-128 | Once started, a member with overrides in a mapped composite has their channels, volume adjustment and, if it has several slots, slots, and skips what they say and what its class cannot do; any other member has none of these and skips only the latter. |
| StartupCalls.CallReachesIff | ezbeq/composite.py:171-175 | Once started, a composite passes a call on to exactly the members whose class takes it and that are not told to skip it, once each. |
| Startup.BalanceIsAllOrNone | ezbeq/composite.py:113-128 | On a mirror composite, or a mapped one not told to accept partial gain, each of set_gain, mute and unmute is skipped by all members or by none. |
| Startup.NoSilentPartialGain | ezbeq/composite.py:171-176 | So such a command is dispatched to every member in order, or to no one. |
| Startup.MembersBelongOnce | ezbeq/device.py:297-308 | No device is a member of two composites, and no composite is a member. |
| Startup.ListedMembersNeverStart | ezbeq/composite.py:113-117 | A mapped composite given a list of members never starts, and is rejected by the check itself unless it allows partial gain. |
| StateSockets.StateSocket.constructor | mobile/src/services/stateSocket.ts:58-65 | A new client keeps the invariant: it has one socket, connecting, and no timer. |
| StateSockets.StateSocket.ReconnectNow | mobile/src/services/stateSocket.ts:179-187 | A nudge keeps the invariant; unless the client is connected or closed, no reconnect is pending afterwards and one new socket is connecting. |
| StateSockets.StateSocket.Close | mobile/src/services/stateSocket.ts:207-217 | close() keeps the invariant: no timer is left, no socket is created, and every socket there is is closing or closed. |
| StateSockets.StateSocket.Deliver | mobile/src/services/stateSocket.ts:77-217 | Whatever event the runtime delivers, the client takes the step the runs below are made of and keeps the invariant. |
| StateSockets.StepKeeps | mobile/src/services/stateSocket.ts:77-217 | Every event keeps the invariant: only the latest socket has handlers, older ones are closing or closed, every timer in the runtime is one of the two fields, and until close() the latest socket is closed exactly if a reconnect is pending. |
| StateSocketTheorems.RunKeeps | mobile/src/services/stateSocket.ts:58-217 | So it holds after every run of events from the construction on. |
| StateSocketTheorems.SocketOrReconnect | mobile/src/services/stateSocket.ts:105-162 | Until close() is called, exactly one of an attached socket not yet closed and a pending reconnect timer exists, and only one of it. |
| StateSocketTheorems.AttemptCountsFailures | mobile/src/services/stateSocket.ts:95-162 | The attempt counter is the number of times in a row the socket went down since it was last up or nudged. |
| StateSocketTheorems.DelayDoubles | mobile/src/services/stateSocket.ts:151-155 | The wait doubles with each failure until it reaches 30 seconds. |
| StateSocketTheorems.BackoffDoubles | mobile/src/services/stateSocket.ts:149-162 | After k failures in a row the next one sets a reconnect timer min(initial * 2^k, 30000) milliseconds ahead. |
| StateSocketTheorems.NoEarlyReconnect | mobile/src/services/stateSocket.ts:149-187 | Until that time no socket is created, unless the caller nudges. |
| StateSocketTheorems.RetryIsPossible | mobile/src/services/stateSocket.ts:156-161 | From then on the pending timer creates one. |
| StateSocketTheorems.ErrorTimerTracksOutage | mobile/src/services/stateSocket.ts:164-177 | The error timer runs out one grace period after the unreported outage began, and there is none otherwise. |
| StateSocketTheorems.ErrorIff | mobile/src/services/stateSocket.ts:164-170 | An error can be raised exactly when an unreported outage has outlasted the grace period and close() was not called. |
| StateSocketTheorems.NoErrorWithinGrace | mobile/src/services/stateSocket.ts:95-177 | No error is raised within the grace period after the socket came up. |
| StateSocketTheorems.ErrorsAreSpaced | mobile/src/services/stateSocket.ts:164-170 | Errors are never closer together than the grace period. |
| StateSocketTheorems.ChangesAreAnnounced | mobile/src/services/stateSocket.ts:95-116 | Over every run onConnectionChange is told true each time the client's socket comes up and false each time it goes down before close(), and nothing else; while the client is connected the last thing it was told is true. |
| StateSocketTheorems.CloseIsFinal | mobile/src/services/stateSocket.ts:207-217 | After close() no socket is created, no timer is pending, no error is raised and no change is announced, whatever happens. |
| Biquads.RawAIsDominant | ezbeq/iir.py:68-135 | a0 is positive and the largest, so the division by it is defined. |
| Biquads.PolesInsideUnitCircle | ezbeq/iir.py:68-135 | The poles of all three types lie strictly inside the unit circle, for any gain, frequency and Q. |
| Biquads.AllFiltersAreStable | ezbeq/iir.py:68-135 | Normalised, a2 lies between -1 and 1 and a1 between plus and minus 1 + a2. |
| Biquads.RawBIsOpposite | ezbeq/iir.py:68-135 | The b terms for a gain are a multiple of the a terms for the opposite gain. |
| Biquads.OppositeGainsCancel | ezbeq/iir.py:68-135 | The filters for a gain and its opposite cancel coefficient by coefficient. |
| Biquads.ZerosInsideUnitCircle | ezbeq/iir.py:68-135 | The zeros lie inside the unit circle too. |
| Biquads.EndsAreRight | ezbeq/iir.py:68-135 | At DC a low shelf has gain A^2 and the others 1; at half the sample rate a high shelf has A^2 and the others 1. |
| FilterResponse.ResponseIsRight | ezbeq/iir.py:52-135 | At every z but -1 a filter of each kind multiplies by exactly its H(s) at the s the bilinear transform takes z from, with its centre at s = i and alpha = sin(w0)/(2Q): numerator and denominator are one multiple, not 0, of those of H(s). |
| FilterResponse.ShelfGainIsRight | ezbeq/iir.py:75-135 | At its centre frequency a shelf multiplies the power by exactly A^2, half its gain in decibels. |
| Biquads.PeakGainIsRight | ezbeq/iir.py:46-72 | At its centre frequency a peaking filter multiplies by exactly A^2 with no phase shift. |
| Biquads.FormattedIsObeyed | ezbeq/iir.py:41-44 | With the a terms negated as they are formatted, a device that adds all five terms puts out the one sample the difference equation asks for. |
| Biquads.DeviceRunsFilter | ezbeq/iir.py:41-44 | So over a whole signal such a device runs the filter. |
| Biquads.OppositeGainUndoes | ezbeq/iir.py:68-135 | A signal filtered with a gain and then with its opposite is the signal itself, sample by sample. |
| Biquads.ZeroGainIsFlat | ezbeq/iir.py:68-135 | Without gain a filter has equal a and b. |
| FilterLines.LineIsReadBack | ezbeq/apis/devices.py:15 | The pattern reads back every line written with any spaces between its words, whatever follows it. |
| FilterLines.OnlyWrittenLinesMatch | ezbeq/apis/devices.py:15 | A line that matches is written so, with exactly the values read. |
| FilterText.ParseFilters | ezbeq/apis/devices.py:37-71 | Although all ten entries start as one shared dict, the result holds for each filter what the last line about it says; the first line at fault is reported. |
| FilterText.TextToCommands | ezbeq/apis/devices.py:37-71 | The same with the source's pattern. |
| FilterText.AcceptedIff | ezbeq/apis/devices.py:53-71 | Text is accepted exactly if each line is blank, or matches, names a filter from 1 to 10 and can be computed. |
| FilterText.UnnamedStaysEmpty | ezbeq/apis/devices.py:40-41 | An entry is empty exactly if no line names its filter. |
| FilterText.LastLineDecides | ezbeq/apis/devices.py:53-67 | Otherwise the last line that names it decides its coefficients, bypassed exactly if that line says OFF. |
| FilterTextContents.AcceptedIffGood | ezbeq/apis/devices.py:53-71 | With the source's pattern: each line is empty, or matches, names a filter from 1 to 10 and can be computed. |
| FilterTextContents.WrittenLineIsRead | ezbeq/apis/devices.py:15 | A line of one of the kinds PEQ, PK, LS and HS, with any spaces between its words, is read for exactly what it says. |
| FilterTextContents.LastLineReachesDevice | ezbeq/apis/devices.py:53-67 | In accepted text the last line that names a filter decides that filter's place on every input and output the text is loaded into: the coefficients designed for it, bypassed exactly if it says OFF. |
| FilterTextContents.UnnamedPlace | ezbeq/apis/devices.py:40-41 | The place of a filter no line names keeps its coefficients, and its bypass unless overwrite is asked for. |
| MinidspBiquads.GenerateBiquads | ezbeq/minidsp.py:1005-1022 | The loops over sides, channels and entries give the command list the specification describes. |
| MinidspBiquads.BiquadsReachPreset | ezbeq/minidsp.py:1005-1022 | The commands leave every chosen channel holding the entries in its first places, and touch no other biquad and no level. |
| FilterText.TextDecidesTen | ezbeq/minidsp.py:1005-1022 | With overwrite the ten places of a chosen channel depend on the text alone; without it a place no line names stays as it was. |
| FilterText.TextIsIsolated | ezbeq/minidsp.py:694-710 | Loaded into a slot from any preset, the text changes the slot's preset as it says and nothing else on the device. |
| Catalogue.ChunksPartition | ezbeq/catalogue.py:360-378 | From any offset on, the chunks are the rows from there on, none missed or repeated, and none is empty. |
| Catalogue.StreamIsComplete | ezbeq/catalogue.py:352-378 | Whatever the configured sizes, the stream ends and holds every row once, in order. |
| Catalogue.ChunkAt | ezbeq/catalogue.py:360-378 | The k-th chunk starts where the sizes say and holds as many rows as its size allows. |
| Catalogue.AnyOrderLoadsAll | ui/src/App.jsx:101-107 | Chunks delivered in any order, each at least once, give the client what loading all rows at once would. |
| Catalogue.ClientGetsWholeCatalogue | ui/src/App.jsx:101-107 | So a client ends with the whole catalogue by id, whatever the chunk sizes and the order of delivery. |
| Catalogue.ClientHoldsEveryRow | ui/src/App.jsx:101-107 | Row by row: it holds every row under its id, and keeps of what it had exactly the rows of this version that are not replaced. |
| Catalogue.FirstMessage | ezbeq/config.py:51-56 | The first message holds as many rows as the first size says, else the chunk size, else 4000, and at least one, as far as there are rows. |
| Episodes.FormatEpisodes | ezbeq/catalogue.py:189-198 | A group prints as its one number or as its first and last, after a comma unless it is the first. |
| Episodes.FormatTvMeta | ezbeq/catalogue.py:200-225 | The loop prints the season and then the groups of consecutive episodes; it raises exactly if a piece is no number. |
| Episodes.GroupsPartition | ezbeq/catalogue.py:205-221 | The groups hold every piece once, in order. |
| Episodes.RangesReadBack | ezbeq/catalogue.py:189-225 | The printed ranges expand to the very numbers listed, and no two neighbours could be joined. |
| Episodes.EpisodesRoundTrip | ezbeq/catalogue.py:200-225 | For any list of two or more numbers joined by commas, the printed ranges expand to that list. |

## Left out

- minidsp command text: commands are the values the CLI reads out of a line, except that gains keep the rounding of their printed form.
- minidsp presets a device does not have: a command to switch to one is ignored, or breaks the run off.
- minidsp coefficients outside `Biquads` are opaque strings, and an entry's filter either carries them or carries the five that were designed.
- minidsp ignoring return codes, time limits and the sleep after a switch: a run of the executable either applies all its commands or breaks off after some.
- minidsp output gains and mutes, levels, merging a cached record, and custom layouts read from the configuration file.
- minidsp messages from the device (`on_ws_message`), which assign a property that has no setter.
- minidsp `send_commands`, which writes lines of its caller and is recorded as `load_biquads` is.
- CamillaDSP servers that rewrite a configuration they are given, connections that break during an update, and sends that raise without one.
- CamillaDSP volume and mute messages, levels, and the REST calls around them; the callbacks' labels are a datatype.
- JRiver XML documents around a PEQ value, and XML beyond the shape of the elements that are printed; titles and values hold no `)`, `<`, `>`, `&`, quote or line break where a round trip is claimed.
- JRiver numbers are strings as printed, and a shelf's slope is given; `replace=True`, the REST calls, and the handler of a failed load, which uses a field its state does not have.
- Composite display falls back to another member's state when the primary was never read; which one is not modelled.
- Composite patches (`update`), levels, hiding members from the list of devices, and persisting the state.
- Validation reads configuration values of the expected kinds; a member list of any other kind counts as none.
- The state socket's messages, and the runtime's rule that a number of milliseconds fits a double; `init` is taken to have been called.
- Floating-point rounding of the filter designs, the rounding of gain and Q before them, and how a gain and a frequency become A, its root, the sine and the cosine.
- FilterLines.LineIsReadBack: digits are ASCII, where the source's pattern also takes those of other scripts; the same goes for `OnlyWrittenLinesMatch`.
- CamillaContents.RecognisedIff: digits are ASCII, and a name that ends in a line feed, which the source's `$` lets through, is not recognised.
- The raw biquad and command branches of `text_to_commands`, which copy lines or `key=value` pairs.
- Catalogue rows come in one fixed order, which the SELECT does not ask for, and the count sent along is their number.
- Episodes.RangesReadBack: pieces are digits, since a range of negative numbers cannot be read back from its dashes.
- The htp1, stormaudio, qsys and reaper devices, which pad, bound and print filters in simpler ways.
- The web and mobile user interfaces beyond merging catalogue chunks and the state socket.
- Sockets, HTTP, subprocesses, the database, logging and files.
