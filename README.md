# Sound booster and equalizer: a verified model of the control logic

The extension captures a tab's audio and passes it through a Web Audio
graph: a pan stage, mono and channel-swap stages, a pitch shifter, effects,
ten equalizer bands, a compressor and a volume gain. The browser does the
signal processing. The extension's own code decides which nodes are
connected, which gain values are written, which capture sessions exist and
how the popup's state is validated and persisted. This project models that
control logic in Dafny and proves properties of it.

The model follows the program's parts, one Dafny module per source file:

- **Graph** (`graph.dfy`): connections as a set of edges `Edge(src, dst, output, input)`. `disconnect()` drops every outgoing edge of a node.
- **Engine** (`audio_engine.dfy`): the offscreen `AudioEngine` class. Its setters move the mono and invert flags, the pan, the volume and the band gains. Its apply methods rewire the graph. The splitter→merger edges depend only on the two flags, and the pan gains stay clamped.
- **Pitch** (`jungle.dfy`): the Jungle pitch shifter. It covers the fade and delay-ramp buffers (filled by loops), the voices' start times, `setPitchOffset`, the semitone table and `setPitchTranspose`.
- **Offscreen** (`offscreen.dfy`): the offscreen document's `tabs` record of engines and its message listener, including the `TAB_NOT_FOUND` and `UNKNOWN_COMMAND` replies and the command aliases.
- **Captured** and **CapturedTabs** (`captured_audio.dfy`, `captured_tabs.dfy`): the per-tab pipeline of `main.ts`. This is one `CapturedAudioObject` per capture, the `capturedTabsArr` list and its message switch.
- **Processor** (`processor.dfy`): the content script's `AudioProcessor`, with one graph per media element. It covers `connectMedia`, rebuilding the graph, updating the settings and disconnecting.
- **EqualizerSlice**, **EffectsSlice**, **UiSlice** (`equalizer_slice.dfy`, `effects_slice.dfy`, `ui_slice.dfy`): the popup's Redux slices. Each reducer is a method on a class holding the draft's fields, tied to a pure function of the old state. The validators of `loadInitialData.fulfilled` are predicates over JavaScript values (`json.dfy`).
- **Hooks** (`hooks.dfy`): the "manual changes" predicate.
- **StorageMiddleware** (`storage_middleware.dfy`): the store seen through its storage middleware. This covers the preset auto-load, the manual-change correction and the storage write. Both follow-up dispatches go through the whole store again.
- **DeepMerge** (`deep_merge.dfy`): `deepMerge` over JavaScript values.
- **Throttle** (`throttle.dfy`): `throttle` as a state machine over its closure variables, with the clock as a parameter.
- **Helpers**, **PresetList**, **ChromeStorage** (`helpers.dfy`, `preset_list.dfy`, `chrome_storage.dfy`): the preset-to-bands table, the volume label, the slider gradient, the preset list operations and the storage helper. Storage is a map field.
- **EqualizerPanel**, **Home** (`equalizer_panel.dfy`, `home.dfy`): the popup's settings handlers as functions from the current settings to the new ones.
- **Types**, **Wrappers**: shared records, `Option` and `Result`.

Real numbers stand for JavaScript numbers. Where the source tests for NaN
or the infinities, `JsNumber` carries them. The model does not evaluate
trigonometry or `sqrt`: those values are kept as symbolic terms or passed
in as parameters.

## Model

| member | source | states |
|---|---|---|
| Graph.AudioGraph.Connect | src/entrypoints/offscreen/utils/AudioEngine.ts:243-253 | `connect` adds exactly the one connection to the context's graph |
| Graph.AudioGraph.Disconnect | src/entrypoints/offscreen/utils/AudioEngine.ts:375-380 | `disconnect()` on a node removes every connection leaving that node and no other |
| Pitch.DelayTimeEntry | src/entrypoints/offscreen/utils/Jungle.ts:75-106 | every delay-ramp entry lies in [0, 1] and the tail after `length1` is 0 |
| Pitch.ShiftUpMirrorsShiftDown | src/entrypoints/offscreen/utils/Jungle.ts:90-98 | without a tail the shift-up ramp is one minus the shift-down ramp |
| Pitch.RampSteps | src/entrypoints/offscreen/utils/Jungle.ts:90-98 | the shift-down ramp rises by 1/length1 per sample and the shift-up ramp falls by 1/length |
| Pitch.CreateDelayTimeBuffer | src/entrypoints/offscreen/utils/Jungle.ts:75-106 | a fresh buffer of length1 + length2 samples whose entries are the ramp, with a silent tail |
| Pitch.FadeArgument | src/entrypoints/offscreen/utils/Jungle.ts:49-66 | the square-root argument lies in [0, 1], and there is none exactly between the two fade indices |
| Pitch.FadeShape | src/entrypoints/offscreen/utils/Jungle.ts:49-71 | the fade buffer is 1 between the fade indices and 0 on the tail |
| Pitch.FadeBounded | src/entrypoints/offscreen/utils/Jungle.ts:49-71 | when the square root maps [0, 1] into [0, 1], every fade entry is in [0, 1] |
| Pitch.CreateFadeBuffer | src/entrypoints/offscreen/utils/Jungle.ts:35-73 | a fresh buffer of length1 + length2 samples holding the fade entries |
| Pitch.MapPitchFromSemitone | src/entrypoints/offscreen/utils/Jungle.ts:243-275 | negative arguments map to e/12 |
| Pitch.MapPitchOffTable | src/entrypoints/offscreen/utils/Jungle.ts:272-273 | a non-negative argument that is not an integer from 0 to 12 maps to 0 |
| Pitch.MapPitchEndpoints | src/entrypoints/offscreen/utils/Jungle.ts:246-271 | example: 0 semitones map to 0 and 12 map to 2 (the all-input facts are `MapPitchIncreasing` and `MapPitchFromSemitone`) |
| Pitch.MapPitchIncreasing | src/entrypoints/offscreen/utils/Jungle.ts:246-271 | the table strictly increases from 0 to 12 |
| Pitch.MapPitchStep | src/entrypoints/offscreen/utils/Jungle.ts:246-271 | each table entry is below the next one |
| Pitch.TruncateToInt | src/entrypoints/offscreen/utils/Jungle.ts:278 | `parseInt(a.toString(), 10)` truncates towards zero, for a number whose `toString` has no exponent |
| Pitch.Jungle.constructor | src/entrypoints/offscreen/utils/Jungle.ts:130-217 | the shift-down pair is audible, the buffers are the ramps and the fade of one period, the voices start at now + 0.05 and half a period later, and the sweep depth is half the delay time |
| Pitch.Jungle.SetDelay | src/entrypoints/offscreen/utils/Jungle.ts:219-222 | both sweep depths become half the delay, and the voice gains and value stay |
| Pitch.Jungle.SetPitchOffset | src/entrypoints/offscreen/utils/Jungle.ts:224-241 | shifting up exactly when mult > 0, the sweep depth is half the delay time times abs(mult), and value is mult |
| Pitch.Jungle.SetPitchTranspose | src/entrypoints/offscreen/utils/Jungle.ts:277-282 | sets the offset to the table value of trunc(a) plus e/12 |
| Engine.BandFilter | src/entrypoints/offscreen/utils/AudioEngine.ts:181-241 | band i has its setupEQ frequency and the given gain; it is a low shelf exactly when first, a high shelf exactly when last, and has Q = 5 exactly when peaking |
| Engine.BandsAscending | src/entrypoints/offscreen/utils/AudioEngine.ts:181-241 | the band frequencies strictly increase from band 0 to band 9 |
| Engine.Retune | src/entrypoints/offscreen/utils/AudioEngine.ts:303-316 | changing only the gains of setupEQ's filters gives setupEQ's filters for the new values |
| Engine.Clamp | src/entrypoints/offscreen/utils/AudioEngine.ts:331-333 | the result lies in [-1, 1], equals the balance inside that range and saturates outside it |
| Engine.ClampOdd | src/entrypoints/offscreen/utils/AudioEngine.ts:331-333 | clamping commutes with negation |
| Engine.MonoPanGain | src/entrypoints/offscreen/utils/AudioEngine.ts:347-356 | the mono gain lies in [0.3, 0.6]; it is 0.6 exactly when centred and 0.3 exactly at full pan |
| Engine.PanTurn | src/entrypoints/offscreen/utils/AudioEngine.ts:331-337 | the pan angle in units of pi/4 lies in [0, 2] and is 1 exactly when centred |
| Engine.PanMirror | src/entrypoints/offscreen/utils/AudioEngine.ts:358-362 | panning to -b mirrors the angle about pi/4, so left and right swap |
| Engine.RoutingFree | src/entrypoints/offscreen/utils/AudioEngine.ts:375-380 | disconnecting the three routing nodes leaves exactly the flag-independent graph |
| Engine.SplitterRewire | src/entrypoints/offscreen/utils/AudioEngine.ts:427-466 | rewiring the splitter alone turns the graph for one invert flag into the graph for the other |
| Engine.SplitterDependsOnlyOnFlags | src/entrypoints/offscreen/utils/AudioEngine.ts:427-466 | the splitter's connections in the whole graph depend on the mono and invert flags alone |
| Engine.StereoChannels | src/entrypoints/offscreen/utils/AudioEngine.ts:440-461 | in stereo the channels go straight, or swapped when inverted |
| Engine.MonoIgnoresInvert | src/entrypoints/offscreen/utils/AudioEngine.ts:432-455 | in mono every input channel feeds both outputs, whatever the invert flag |
| Engine.MonoRouting | src/entrypoints/offscreen/utils/AudioEngine.ts:382-404 | mono routes panMerger through monoGain into monoSplitter; stereo links panMerger to monoSplitter directly |
| Engine.FromFixed | src/entrypoints/offscreen/utils/AudioEngine.ts:243-296 | the connections leaving any node other than a routing node do not depend on the flags |
| Engine.EqChainOrder | src/entrypoints/offscreen/utils/AudioEngine.ts:278-296 | band k connects only to band k+1, and the last band only to the compressor |
| Engine.EffectsOrder | src/entrypoints/offscreen/utils/AudioEngine.ts:255-276 | monoMerger feeds the first present effect; the effects chain in the order pitch, chorus, convolver, skipping absent ones, and the last feeds the first EQ band |
| Engine.PitchArgument | src/entrypoints/offscreen/utils/AudioEngine.ts:486-492 | a number passes through, a truthy `value` field is unwrapped, and the result is the argument or its `value` |
| Engine.PitchArgumentWrappedZero | src/entrypoints/offscreen/utils/AudioEngine.ts:488 | `{value: 0}` is passed on as the object itself |
| Engine.CreatePitch | src/entrypoints/offscreen/utils/AudioEngine.ts:123-127 | the pitch block as intended: a fresh, valid pitch shifter on the shift-down pair with value 0 and sweep depth 0 (as written, `new Jungle` throws; see `Engine.NewEngineAsWritten`) |
| Engine.AudioEngine.WiredAsTopology | src/entrypoints/offscreen/utils/AudioEngine.ts:87-179 | a valid engine's connections are the topology for its mono and invert flags and its effects |
| Engine.AudioEngine.Gains | src/entrypoints/offscreen/utils/AudioEngine.ts:303-316 | the live band gains are the settings' `eq` |
| Engine.AudioEngine.constructor | src/entrypoints/offscreen/utils/AudioEngine.ts:87-179 | the constructor with the pitch block as intended: the engine is valid, holds a copy of the settings, has exactly the requested effects, and has the volume, pan, mono gain and wiring that the settings imply; as written this holds only for settings without `isPitch` |
| Engine.NewEngineAsWritten | src/entrypoints/offscreen/utils/AudioEngine.ts:1-127 | `new AudioEngine(settings)` as written: no engine exactly when the settings ask for pitch, since `Jungle` is unbound at line 125; otherwise a valid engine with the settings and no pitch shifter |
| Engine.AudioEngine.Start | src/entrypoints/offscreen/utils/AudioEngine.ts:152-178 | after setupEQ, the initial gains, the connections and the pan/mono/invert steps, the engine is valid for the settings |
| Engine.AudioEngine.SetupEq | src/entrypoints/offscreen/utils/AudioEngine.ts:181-241 | the filters are tuned to the values and nothing else changes |
| Engine.AudioEngine.ConnectAll | src/entrypoints/offscreen/utils/AudioEngine.ts:169-172 | the graph is the fixed part plus the stereo link, and the fixed part has no routing-node connections |
| Engine.AudioEngine.ConnectInitialGraph | src/entrypoints/offscreen/utils/AudioEngine.ts:243-253 | adds the pan stage and panMerger -> monoSplitter |
| Engine.AudioEngine.ConnectEffectsChain | src/entrypoints/offscreen/utils/AudioEngine.ts:255-276 | adds exactly the effects chain for the present effects |
| Engine.AudioEngine.ConnectEqChain | src/entrypoints/offscreen/utils/AudioEngine.ts:278-296 | adds exactly the EQ chain through the compressor and the volume gain to the destination |
| Engine.AudioEngine.SetVolume | src/entrypoints/offscreen/utils/AudioEngine.ts:298-301 | records the volume and sets the output gain to it, nothing else |
| Engine.AudioEngine.SetEq | src/entrypoints/offscreen/utils/AudioEngine.ts:303-316 | records the values and retunes the ten filters to them |
| Engine.AudioEngine.ApplyPan | src/entrypoints/offscreen/utils/AudioEngine.ts:331-345 | left gain cos and right gain sin of pi/4 times (1 + clamp(balance)) |
| Engine.AudioEngine.ApplyMonoPan | src/entrypoints/offscreen/utils/AudioEngine.ts:347-364 | sets the mono gain from the balance and, when inverted, pans to -balance |
| Engine.AudioEngine.SetPan | src/entrypoints/offscreen/utils/AudioEngine.ts:319-329 | records the balance, pans (to -balance in inverted mono) and adjusts the mono gain only in mono |
| Engine.AudioEngine.ApplyInvert | src/entrypoints/offscreen/utils/AudioEngine.ts:427-466 | replaces the splitter's connections by the wiring for the current flags |
| Engine.AudioEngine.ApplyMono | src/entrypoints/offscreen/utils/AudioEngine.ts:375-416 | rebuilds the routing for the flag, sets the mono gain, and re-pans when mono, panned and inverted |
| Engine.AudioEngine.ApplyPanMonoInvert | src/entrypoints/offscreen/utils/AudioEngine.ts:175-178 | leaves the topology for the flags, the pan for the (possibly negated) balance and the mono gain for the flags |
| Engine.AudioEngine.SetMono | src/entrypoints/offscreen/utils/AudioEngine.ts:366-373 | an unchanged flag changes nothing; otherwise records and applies it |
| Engine.AudioEngine.SetInvert | src/entrypoints/offscreen/utils/AudioEngine.ts:418-425 | an unchanged flag changes nothing; otherwise records it and rewires the splitter |
| Engine.AudioEngine.Reset | src/entrypoints/offscreen/utils/AudioEngine.ts:507-526 | adopts the new settings, gains and wiring, keeps the original effects and resets the pitch shifter to 0 |
| Engine.AudioEngine.ChangePitch | src/entrypoints/offscreen/utils/AudioEngine.ts:486-492 | with a pitch shifter: shifting up exactly when the value is positive, and the value recorded |
| Engine.AudioEngine.GetSettings | src/entrypoints/offscreen/utils/AudioEngine.ts:528-530 | the reported flags, balance and band gains are the live ones |
| Engine.AudioEngine.Destroy | src/entrypoints/offscreen/utils/AudioEngine.ts:532-551 | the context is closed and the source's connections are removed |
| Captured.Whole | src/entrypoints/offscreen/main.ts:241-252 | the whole saved settings object, sent on capture, defines every field |
| Captured.EqOnly | src/entrypoints/offscreen/main.ts:266 | `{ eq: preset }` defines the eq and nothing else |
| Captured.MergeNothing | src/entrypoints/offscreen/main.ts:570-603 | loading a patch with nothing defined leaves the settings as they were |
| Captured.MergeWhole | src/entrypoints/offscreen/main.ts:570-603 | loading a whole settings object whose pan lies in [-1, 1] yields exactly that object |
| Captured.MergeIdempotent | src/entrypoints/offscreen/main.ts:570-603 | loading the same partial settings twice is loading them once |
| Captured.MergeEqOnly | src/entrypoints/offscreen/main.ts:261-269 | loading a preset's `{ eq }` changes the band gains and nothing else |
| Captured.Band | src/entrypoints/offscreen/main.ts:371-403 | band `i` gets the gain, its frequency and its filter type from the band table |
| Captured.ShelfKeys | src/entrypoints/offscreen/main.ts:399 | exactly the first and the last band keys contain "twenty" |
| Captured.OnlyShelvesLackQ | src/entrypoints/offscreen/main.ts:399 | Q = 5 is set on every band except the two shelves, since "twentyThousand" also contains "twenty" |
| Captured.SameBandsAsEngine | src/entrypoints/offscreen/main.ts:371-403 | every band is configured exactly as AudioEngine.setupEQ configures it |
| Captured.RoundTenth | src/entrypoints/offscreen/main.ts:368 | `Number(v.toFixed(1))` lies within half a tenth of a non-negative `v` and is a whole number of tenths |
| Captured.RoundTenthIdempotent | src/entrypoints/offscreen/main.ts:368 | rounding an already rounded attack changes nothing |
| Captured.Rewire | src/entrypoints/offscreen/main.ts:460-480 | disconnecting the routing nodes and connecting them for the new flag gives the new flag's graph, whatever the old flag |
| Captured.RoutedBySetMono | src/entrypoints/offscreen/main.ts:405-480 | the connections leaving a routing node are exactly the ones setMono makes |
| Captured.MonoRouting | src/entrypoints/offscreen/main.ts:460-480 | in mono panMerger feeds the splitter, both channels go into monoMerger's one input, then monoGain, then the first band |
| Captured.StereoRouting | src/entrypoints/offscreen/main.ts:460-480 | in stereo panMerger goes straight to the first band and the mono nodes have no outgoing connection |
| Captured.StereoNodesUnused | src/entrypoints/offscreen/main.ts:343-352 | stereoMerger and stereoGain are created but no connection leaves or enters them |
| Captured.PanLawBounds | src/entrypoints/offscreen/main.ts:523-536 | with the pan in [-1, 1] both pan gains lie in [0, 1] |
| Captured.PanLawUnique | src/entrypoints/offscreen/main.ts:523-536 | the pan alone determines both pan gains |
| Captured.WithParam | src/entrypoints/offscreen/main.ts:84-94 | writing `compressor[k]` sets that parameter and leaves the other four |
| Captured.ToNumber | src/entrypoints/offscreen/main.ts:524 | `Number(val)` of a number is itself, of null or false is 0, of true is 1 |
| Captured.ResetTo | src/entrypoints/offscreen/main.ts:506-521 | reset restores the default compressor and eq, mono and invert off, pan 0 and volume 1 |
| Captured.NextWindowState | src/entrypoints/offscreen/main.ts:161-165 | the window state changes only on saveWindowState with a truthy state, to that state |
| Captured.ReadsKeepSettings | src/entrypoints/offscreen/main.ts:78-82 | the get cases and saveWindowState leave the tab's settings unchanged |
| Captured.EffectKeepsPanInRange | src/entrypoints/offscreen/main.ts:111-115 | every per-tab command keeps the stored pan in [-1, 1] |
| Captured.WriteIdempotent | src/entrypoints/offscreen/main.ts:72-141 | sending the same parameter message twice has the effect of sending it once |
| Captured.BandWriteLocal | src/entrypoints/offscreen/main.ts:96-109 | a band message changes that band's gain and nothing else |
| Captured.CapturedAudioObject.Gains | src/entrypoints/offscreen/main.ts:625-628 | the band gains in band order, one per filter |
| Captured.CapturedAudioObject.constructor | src/entrypoints/offscreen/main.ts:305-320 | the new object holds the settings it was given, with the attack rounded to a tenth, both pan gains at 1 and no window state |
| Captured.CapturedAudioObject.SetupCompressor | src/entrypoints/offscreen/main.ts:358-369 | every compressor parameter is written and the attack then rounded to a tenth; nothing else changes |
| Captured.CapturedAudioObject.SetupEqualizer | src/entrypoints/offscreen/main.ts:371-403 | ten filters as the band table says, with the given gains; nothing else changes |
| Captured.CapturedAudioObject.ConnectAudioNodes | src/entrypoints/offscreen/main.ts:405-458 | the graph becomes the topology for the mono flag and the left invert gain is -1 when inverted, 1 otherwise |
| Captured.CapturedAudioObject.SetMono | src/entrypoints/offscreen/main.ts:460-480 | the flag is recorded and only the routing nodes' connections are rebuilt for it |
| Captured.CapturedAudioObject.SetInvert | src/entrypoints/offscreen/main.ts:482-485 | the flag is recorded and only the left invert gain changes, to -1 or 1 |
| Captured.CapturedAudioObject.SetPan | src/entrypoints/offscreen/main.ts:523-536 | the clamped pan is stored and the two pan gains follow the pan law, each in [0, 1] |
| Captured.CapturedAudioObject.SetEqGains | src/entrypoints/offscreen/main.ts:513-515 | every band gets its new gain and the filters keep their shape |
| Captured.CapturedAudioObject.SetBandGain | src/entrypoints/offscreen/main.ts:107 | only band `i`'s gain changes |
| Captured.CapturedAudioObject.ResetSettings | src/entrypoints/offscreen/main.ts:506-521 | the reported settings become the reset values and the pan gains return to 1 |
| Captured.CapturedAudioObject.LoadSettings | src/entrypoints/offscreen/main.ts:570-603 | the reported settings become the merge of the old ones with the defined fields; the pan gains change only when a pan is given |
| Captured.CapturedAudioObject.LoadCompressor | src/entrypoints/offscreen/main.ts:573-577 | a given compressor replaces the parameters, otherwise nothing changes |
| Captured.CapturedAudioObject.LoadEq | src/entrypoints/offscreen/main.ts:579-583 | a given eq replaces the band gains, otherwise nothing changes |
| Captured.CapturedAudioObject.LoadPan | src/entrypoints/offscreen/main.ts:585-588 | a given pan is stored clamped and applied through the pan law, otherwise nothing changes |
| Captured.CapturedAudioObject.LoadMono | src/entrypoints/offscreen/main.ts:590-593 | a given mono flag is recorded and routed, otherwise nothing changes |
| Captured.CapturedAudioObject.LoadInvert | src/entrypoints/offscreen/main.ts:595-598 | a given invert flag is recorded and applied, otherwise nothing changes |
| Captured.CapturedAudioObject.LoadVolume | src/entrypoints/offscreen/main.ts:600-602 | a given volume is written, otherwise nothing changes |
| Captured.CapturedAudioObject.ChangeCompressor | src/entrypoints/offscreen/main.ts:84-94 | only that compressor parameter changes |
| Captured.CapturedAudioObject.ChangeBand | src/entrypoints/offscreen/main.ts:96-109 | only that band's gain changes |
| Captured.CapturedAudioObject.ChangePan | src/entrypoints/offscreen/main.ts:111-115 | only the pan changes, to the clamped value |
| Captured.CapturedAudioObject.ChangeMono | src/entrypoints/offscreen/main.ts:123-128 | only the mono flag changes |
| Captured.CapturedAudioObject.ChangeInvert | src/entrypoints/offscreen/main.ts:136-141 | only the invert flag changes |
| Captured.CapturedAudioObject.Perform | src/entrypoints/offscreen/main.ts:22-173 | a per-tab command changes the tab's settings, window state, reply and outgoing messages as the switch's case for it says |
| Captured.CapturedAudioObject.PerformRead | src/entrypoints/offscreen/main.ts:78-173 | the get cases answer the current value and change nothing; saveWindowState changes only the window state |
| Captured.CapturedAudioObject.PerformLoad | src/entrypoints/offscreen/main.ts:22-70 | loadCapturedTab, reset, loadSavedSettings, loadPreset and saveSettings give the settings and messages of their cases |
| Captured.CapturedAudioObject.PerformWrite | src/entrypoints/offscreen/main.ts:72-141 | a parameter message with a defined value writes that parameter and nothing else |
| Captured.CapturedAudioObject.GetSettings | src/entrypoints/offscreen/main.ts:605-631 | the reply is exactly the settings the object currently holds |
| Captured.CapturedAudioObject.StopAudio | src/entrypoints/offscreen/main.ts:487-504 | the source, volume, compressor and band nodes lose their connections, the context is closed, and the result is true |
| CapturedTabs.FindIndex | src/entrypoints/offscreen/main.ts:276-278 | -1 exactly when the id is absent, otherwise the first position holding it |
| CapturedTabs.Removed | src/entrypoints/offscreen/main.ts:273 | `splice(i, 1)` drops position `i` and keeps the rest in order |
| CapturedTabs.Target | src/entrypoints/offscreen/main.ts:13 | the index is -1 unless the message's tab id is captured, and then names that tab |
| CapturedTabs.RemoveFound | src/entrypoints/offscreen/main.ts:271-274 | removing the entry found for an id removes one copy of that id and nothing else |
| CapturedTabs.RemovedNotFound | src/entrypoints/offscreen/main.ts:149-155 | with unique ids, a tab removed by powerOff or tabRemoved is no longer found |
| CapturedTabs.RecaptureShadowed | src/entrypoints/offscreen/main.ts:240-254 | capturing an already captured tab again adds an entry that findIndex never reaches |
| CapturedTabs.Registry.Ids | src/entrypoints/offscreen/main.ts:183 | the captured tab ids in list order |
| CapturedTabs.Registry.constructor | src/entrypoints/offscreen/main.ts:183 | the list starts empty |
| CapturedTabs.Registry.CaptureTab | src/entrypoints/offscreen/main.ts:240-254 | one fresh object built from the saved settings is appended and the earlier ones stay |
| CapturedTabs.Registry.PowerOff | src/entrypoints/offscreen/main.ts:271-274 | the tab's audio is stopped, it is spliced out, and every other object is untouched |
| CapturedTabs.Registry.Handle | src/entrypoints/offscreen/main.ts:1-180 | messages for another target are ignored; per-tab commands act on the found tab only and do nothing when it is not captured; powerOff and tabRemoved remove the found tab; captureTab appends one tab when the stream opens |
| CapturedTabs.Registry.HandleForTab | src/entrypoints/offscreen/main.ts:22-173 | a per-tab command acts on the tab found and on no other, or does nothing when none is found |
| CapturedTabs.Registry.HandleCapture | src/entrypoints/offscreen/main.ts:16-20 | with a truthy stream id and tab id and a stream that opens, one tab built from the saved settings is appended and the popup is sent the settings; otherwise nothing changes and nothing is sent; existing tabs are untouched either way |
| CapturedTabs.Registry.HandleRemoval | src/entrypoints/offscreen/main.ts:28-155 | powerOff and tabRemoved: the tab found is stopped and spliced out, or nothing changes when none is found; powerOff answers success only when a tab was found, tabRemoved always answers true |
| CapturedTabs.Registry.HandleTab | src/entrypoints/offscreen/main.ts:22-173 | the tab at `i` follows the per-tab effect and the reply and messages follow its case |
| Offscreen.DefaultsAreNeutral | src/entrypoints/offscreen/offscreen.ts:20-53 | the document's defaults are ten flat bands, volume 1, balance 0, and mono, invert, pitch, chorus and convolver off |
| Offscreen.OpOf | src/entrypoints/offscreen/offscreen.ts:158-211 | a command reaches the volume case exactly for its two names, and the close case exactly for closeAudio and disposeTab |
| Offscreen.AliasesAgree | src/entrypoints/offscreen/offscreen.ts:159-205 | each old and new name of a command reaches the same case |
| Offscreen.Command | src/entrypoints/offscreen/offscreen.ts:156 | `name || type`: the name when it is a non-empty string, the type otherwise |
| Offscreen.ApplyKeepsOthers | src/entrypoints/offscreen/offscreen.ts:183-206 | the compressor, pitch, convolver, chorus, close and unknown cases leave the engine's stored settings alone |
| Offscreen.SameFlagKeeps | src/entrypoints/offscreen/offscreen.ts:169-177 | setting mono or invert to its current value changes nothing |
| Offscreen.VolumeNumber | src/entrypoints/offscreen/offscreen.ts:133 | a gain written with a number takes it, with a flag takes 1 or 0 |
| Offscreen.NewEngine | src/entrypoints/offscreen/offscreen.ts:87 | a new working engine on the default settings, its tab id the message's, or 0 when absent |
| Offscreen.Dispatch | src/entrypoints/offscreen/offscreen.ts:158-201 | a case that calls an engine method leaves the engine working with its settings updated as that case says |
| Offscreen.Document.constructor | src/entrypoints/offscreen/offscreen.ts:18 | the record starts empty |
| Offscreen.Document.CleanupTab | src/entrypoints/offscreen/offscreen.ts:55-66 | the tab's engine is destroyed and its entry deleted; nothing happens when there is no entry |
| Offscreen.Document.Unregister | src/entrypoints/offscreen/offscreen.ts:65 | the entry is deleted, the other entries are kept, and the removed engine shares no object with the engines that stay, so the document stays valid |
| Offscreen.Document.CaptureTab | src/entrypoints/offscreen/offscreen.ts:68-102 | a fresh engine on the default settings is stored under the tab id, replacing any entry, and the other entries stay |
| Offscreen.Document.Handle | src/entrypoints/offscreen/offscreen.ts:104-216 | other targets are ignored; startRecording fails without a stream id or a stream and otherwise registers a new engine; TAB_NOT_FOUND and UNKNOWN_COMMAND change nothing; close removes the entry; `change_compressor` with an `undefined` or `null` value throws in `changeCompressor` (utils/AudioEngine.ts:468-469), so no reply is sent and nothing changes; every other case updates that one engine and replies `{ status: true }` |
| Offscreen.Document.StartRecording | src/entrypoints/offscreen/offscreen.ts:123-148 | "StreamId is required" or the media error when capture fails; otherwise a new engine whose gain takes the message's value when one is given |
| Offscreen.Document.Register | src/entrypoints/offscreen/offscreen.ts:128-137 | the new engine is stored under the tab id and the given volume written to its gain |
| Offscreen.Document.SetGain | src/entrypoints/offscreen/offscreen.ts:133 | only the gain node's value changes |
| Offscreen.Document.Drive | src/entrypoints/offscreen/offscreen.ts:158-201 | the tab's engine settings follow the case and the other engines keep theirs |
| Processor.Assembled | src/utils/audioProcessor.ts:73-122 | wiring filters, the optional mono stage, the optional inversion stage and the tail in turn gives the topology |
| Processor.TopologySources | src/utils/audioProcessor.ts:56-122 | every connection a rebuild makes leaves the source or a node the next rebuild disconnects |
| Processor.FiltersOf | src/utils/audioProcessor.ts:30-37 | one peaking filter per band, at the band's frequency with Q 1 |
| Processor.GainsOf | src/utils/audioProcessor.ts:35 | each filter's gain is its band's gain |
| Processor.FilterChainInOrder | src/utils/audioProcessor.ts:76-80 | the filters are connected in band order, the last one to the gain |
| Processor.StageChannels | src/utils/audioProcessor.ts:83-117 | the mono stage connects all four channel pairs; the inversion stage only crosses left and right |
| Processor.AudioNodes.constructor | src/utils/audioProcessor.ts:24-46 | the nodes connectMedia creates: the filters from the bands, no connections and no stages yet |
| Processor.AudioNodes.ValidIsSettled | src/utils/audioProcessor.ts:56-132 | a wired context only has connections that leave the source or a node a rebuild disconnects |
| Processor.AudioNodes.DisconnectStages | src/utils/audioProcessor.ts:60-71 | every connection except the source's is dropped |
| Processor.AudioNodes.ConnectFilters | src/utils/audioProcessor.ts:74-80 | the filter chain is added and the current node is the last filter, or the source when there is none |
| Processor.AudioNodes.MakePair | src/utils/audioProcessor.ts:84-85 | a splitter and a merger with two new names |
| Processor.AudioNodes.ApplyValues | src/utils/audioProcessor.ts:124-131 | volume and balance are written and each band's gain reaches its filter when there is one |
| Processor.AudioNodes.Close | src/utils/audioProcessor.ts:138-147 | every connection is dropped and the context closed |
| Processor.AudioNodes.AddMono | src/utils/audioProcessor.ts:83-100 | a mono stage exactly when the settings ask for mono, fed by the current node; the fields are cleared otherwise |
| Processor.AudioNodes.AddInvert | src/utils/audioProcessor.ts:102-117 | an inversion stage exactly when the settings ask for it, fed by the current node; the fields are cleared otherwise |
| Processor.AudioNodes.WiredIsValid | src/utils/audioProcessor.ts:56-132 | a context wired as the topology plus the source's own connections is valid |
| Processor.AudioNodes.Rebuild | src/utils/audioProcessor.ts:56-132 | the stages match the settings, the graph is the source's old connections plus the topology, and the values are applied |
| Processor.AudioNodes.ConnectTail | src/utils/audioProcessor.ts:119-122 | the current node is connected to the gain, the gain to the panner and the panner to the destination, and nothing else in the context changes |
| Processor.AudioNodes.Rewire | src/utils/audioProcessor.ts:60-122 | the graph part of a rebuild, leaving the values alone |
| Processor.NewNodes | src/utils/audioProcessor.ts:23-50 | a fresh context with the filters from the bands, wired as the topology for the settings, with their values |
| Processor.AudioProcessor.constructor | src/utils/audioProcessor.ts:14 | no element is connected |
| Processor.AudioProcessor.NeedsGraphRebuild | src/utils/audioProcessor.ts:176-191 | true exactly when the element is known and its mono or inversion stage differs from what the settings ask |
| Processor.AudioProcessor.RebuildAudioGraph | src/utils/audioProcessor.ts:56-132 | nothing for an unknown element; otherwise that element's graph and values are rebuilt |
| Processor.AudioProcessor.UpdateSettings | src/utils/audioProcessor.ts:155-174 | the values always follow the settings; the graph is rebuilt only when a stage changes and is otherwise left as it was |
| Processor.AudioProcessor.ConnectMedia | src/utils/audioProcessor.ts:16-54 | a known element only has its settings updated, with the volume, balance and band gains written and the graph rebuilt exactly when a stage changes (as `updateSettings` does); a new one gets a fresh context wired for the settings; an element that already had a source node made gets nothing, because `createMediaElementSource` throws and the `catch` (lines 51-53) runs before `nodes.set`; the element is marked as having a source node in every case but the last |
| Processor.AudioProcessor.AddMedia | src/utils/audioProcessor.ts:23-50 | the new element's entry is added and the others stay |
| Processor.AudioProcessor.DisconnectMedia | src/utils/audioProcessor.ts:134-153 | the element's nodes are disconnected, its context closed and its entry removed; nothing happens for an unknown element |
| Processor.AudioProcessor.DisconnectAll | src/utils/audioProcessor.ts:193-195 | every element is disconnected and closed and the map ends empty |
| Processor.AudioProcessor.DisconnectNext | src/utils/audioProcessor.ts:194 | one element is disconnected and removed, the others stay as they were |
| Processor.AudioProcessor.CloseEntry | src/utils/audioProcessor.ts:138-152 | a registered element's nodes are disconnected, its context closed and its entry removed; the elements with source nodes stay as they were |
| Processor.AudioNodes.DisconnectNodes | src/utils/audioProcessor.ts:139-146 | every connection is dropped and the context stays open with its values |
| Processor.AudioProcessor.DisableThenEnable | src/entrypoints/content/index.ts:77-83 | a disable (`disconnectMedia` and forgetting the element) followed by a new `connectMedia` leaves the element without an entry and its old context closed |
| Processor.AudioProcessor.Suspend | src/entrypoints/content/index.ts:80-83 | the intended disable: the element's nodes are disconnected and its open context is kept for it, idle; nothing happens for an unknown element |
| Processor.AudioProcessor.Park | src/entrypoints/content/index.ts:81-82 | the intended disable of a registered element: its entry moves, idle, to the kept contexts |
| Processor.AudioProcessor.Reconnect | src/utils/audioProcessor.ts:16-54 | the intended `connectMedia`: a suspended element is rewired for the settings in its kept context; a registered element is updated as `updateSettings` does (values written, graph rebuilt exactly when a stage changes); a never-sourced element gets a fresh context wired for the settings with their values; an element with a source node and no context is left alone |
| Processor.AudioProcessor.Resume | src/utils/audioProcessor.ts:56-132 | a kept context is rebuilt for the settings and becomes the element's entry again |
| Processor.AudioProcessor.SuspendThenReconnect | src/entrypoints/content/index.ts:77-83 | the intended disable and re-enable: the same context is the element's entry again, wired as the topology for the new settings, with their volume and balance, and open |
| EqualizerSlice.FindPreset | src/entrypoints/popup/store/slices/equalizerSlice.js:72 | the index of the first preset with the key, or none exactly when no preset has it |
| EqualizerSlice.WithoutKey | src/entrypoints/popup/store/slices/equalizerSlice.js:127 | the presets without the key, each of them one of the originals, and every other preset kept |
| EqualizerSlice.StoreAt | src/entrypoints/popup/store/slices/equalizerSlice.js:50 | `eq[index] = value` sets that element, keeps the others, and past the end grows the array with undefined holes |
| EqualizerSlice.ValidCustoms | src/entrypoints/popup/store/slices/equalizerSlice.js:221-229 | the well-formed stored custom presets, non-empty exactly when one of them is well formed, each with ten gains |
| EqualizerSlice.Equalizer.constructor | src/entrypoints/popup/store/slices/equalizerSlice.js:30-39 | the slice starts in its initial state |
| EqualizerSlice.Equalizer.SetEq | src/entrypoints/popup/store/slices/equalizerSlice.js:45-47 | only eq changes, to the payload |
| EqualizerSlice.Equalizer.UpdateEqValue | src/entrypoints/popup/store/slices/equalizerSlice.js:48-51 | only eq changes, by the element assignment |
| EqualizerSlice.Equalizer.SetVolume | src/entrypoints/popup/store/slices/equalizerSlice.js:52-54 | only volume changes, to the payload |
| EqualizerSlice.Equalizer.SetBalance | src/entrypoints/popup/store/slices/equalizerSlice.js:55-57 | only balance changes, to the payload |
| EqualizerSlice.Equalizer.SetMono | src/entrypoints/popup/store/slices/equalizerSlice.js:58-60 | only isMono changes, to the payload |
| EqualizerSlice.Equalizer.SetInvert | src/entrypoints/popup/store/slices/equalizerSlice.js:61-63 | only isInvert changes, to the payload |
| EqualizerSlice.Equalizer.SetPresets | src/entrypoints/popup/store/slices/equalizerSlice.js:64-66 | only the preset list changes, to the payload |
| EqualizerSlice.Equalizer.SetSelectedPreset | src/entrypoints/popup/store/slices/equalizerSlice.js:67-69 | only the selection changes, to the payload |
| EqualizerSlice.Equalizer.SetHasManualChanges | src/entrypoints/popup/store/slices/equalizerSlice.js:100-102 | only the manual-changes flag changes |
| EqualizerSlice.Equalizer.LoadPreset | src/entrypoints/popup/store/slices/equalizerSlice.js:70-99 | the state becomes the preset-loaded state |
| EqualizerSlice.Equalizer.ResetEqualizer | src/entrypoints/popup/store/slices/equalizerSlice.js:103-113 | the state becomes the reset state |
| EqualizerSlice.Equalizer.AddPreset | src/entrypoints/popup/store/slices/equalizerSlice.js:114-116 | the preset is appended and nothing else changes |
| EqualizerSlice.Equalizer.UpdatePreset | src/entrypoints/popup/store/slices/equalizerSlice.js:117-124 | the state becomes the preset-updated state |
| EqualizerSlice.Equalizer.DeletePreset | src/entrypoints/popup/store/slices/equalizerSlice.js:125-135 | the result says whether the reducer completed; then the state is the deleted state, otherwise it stays as it was |
| EqualizerSlice.Equalizer.InitializeFromStorage | src/entrypoints/popup/store/slices/equalizerSlice.js:136-154 | the state becomes the initialised state |
| EqualizerSlice.Equalizer.LoadFulfilled | src/entrypoints/popup/store/slices/equalizerSlice.js:157-245 | the state becomes the loaded state |
| EqualizerSlice.DefaultPresetFirst | src/entrypoints/popup/store/slices/equalizerSlice.js:5-6 | the built-in list starts with the flat, non-custom default preset, a valid eq |
| EqualizerSlice.UpdateEqValueOnly | src/entrypoints/popup/store/slices/equalizerSlice.js:48-51 | within the array only `eq[index]` changes, the length stays and nothing outside eq changes |
| EqualizerSlice.LoadPresetEffect | src/entrypoints/popup/store/slices/equalizerSlice.js:70-99 | the load succeeds exactly when the first preset with the key has an eq; otherwise the state is unchanged |
| EqualizerSlice.LoadPresetSelects | src/entrypoints/popup/store/slices/equalizerSlice.js:81-91 | after a successful load the key is selected, names a preset, eq is that preset's and there are no manual changes |
| EqualizerSlice.ResetRestores | src/entrypoints/popup/store/slices/equalizerSlice.js:103-113 | reset keeps the preset list, restores every other field of the initial state (flat eq, volume 2, default selected) and is idempotent |
| EqualizerSlice.UpdatePresetOnly | src/entrypoints/popup/store/slices/equalizerSlice.js:117-124 | only the first preset with the key is rewritten, and only in the fields given |
| EqualizerSlice.WithoutKeyAppend | src/entrypoints/popup/store/slices/equalizerSlice.js:127 | the filter distributes over concatenation, so kept presets keep their order |
| EqualizerSlice.WithoutKeyAbsent | src/entrypoints/popup/store/slices/equalizerSlice.js:127 | a list without the key is left as it is |
| EqualizerSlice.DeletePresetEffect | src/entrypoints/popup/store/slices/equalizerSlice.js:125-135 | every preset with the key is dropped; the selection falls back to default only when the deleted key was selected |
| EqualizerSlice.DeletePresetFails | src/entrypoints/popup/store/slices/equalizerSlice.js:128-134 | the reducer throws exactly when the selected, non-default preset is deleted and the first default preset has no eq |
| EqualizerSlice.FirstDefaultKept | src/entrypoints/popup/store/slices/equalizerSlice.js:127-130 | filtering out a key other than "default" leaves the preset that `find` picks for "default" the same, or none in both lists |
| EqualizerSlice.LoadedEq | src/entrypoints/popup/store/slices/equalizerSlice.js:161-175 | the stored eq is taken exactly when it is an array of ten numbers in [-40, 40]; otherwise eq is unchanged |
| EqualizerSlice.LoadedVolume | src/entrypoints/popup/store/slices/equalizerSlice.js:190-204 | the loaded volume is the old one or a number in [0, 4] |
| EqualizerSlice.LoadedSelection | src/entrypoints/popup/store/slices/equalizerSlice.js:206-216 | the selection ends as a non-blank string: the stored one when it is one, else default |
| EqualizerSlice.LoadedPresets | src/entrypoints/popup/store/slices/equalizerSlice.js:218-244 | stored custom presets replace the list, after the built-in ones, exactly when one of them is valid |
| EqualizerSlice.LoadKeepsValidEq | src/entrypoints/popup/store/slices/equalizerSlice.js:161-175 | a state holding ten valid gains still does after a load |
| EffectsSlice.ParsedOrZero | src/entrypoints/popup/store/slices/effectsSlice.js:53 | `parseFloat(value) \|\| 0` is always a number other than NaN: the parsed number when it is neither NaN nor 0, else 0 |
| EffectsSlice.MergeChecked | src/entrypoints/popup/store/slices/effectsSlice.js:147-180 | the validated parameters are the current ones overridden by exactly the stored keys that name a default parameter and pass the type check |
| EffectsSlice.AcceptedStep | src/entrypoints/popup/store/slices/effectsSlice.js:151-179 | one more key of the loop adds exactly that key's accepted value |
| EffectsSlice.Effects.constructor | src/entrypoints/popup/store/slices/effectsSlice.js:5-39 | the slice starts in its initial state |
| EffectsSlice.Effects.SetPitch | src/entrypoints/popup/store/slices/effectsSlice.js:45-47 | only pitch changes, to the payload |
| EffectsSlice.Effects.SetConvolver | src/entrypoints/popup/store/slices/effectsSlice.js:48-50 | only the convolver changes, to the payload |
| EffectsSlice.Effects.UpdateConvolver | src/entrypoints/popup/store/slices/effectsSlice.js:51-54 | only the named convolver parameter changes, to the parsed number or 0 |
| EffectsSlice.Effects.SetCompressor | src/entrypoints/popup/store/slices/effectsSlice.js:55-57 | only the compressor changes, to the payload |
| EffectsSlice.Effects.UpdateCompressor | src/entrypoints/popup/store/slices/effectsSlice.js:58-61 | only the named compressor parameter changes, to the value |
| EffectsSlice.Effects.SetChorus | src/entrypoints/popup/store/slices/effectsSlice.js:62-64 | only the chorus changes, to the payload |
| EffectsSlice.Effects.UpdateChorus | src/entrypoints/popup/store/slices/effectsSlice.js:65-68 | only the named chorus parameter changes, to the value |
| EffectsSlice.Effects.SetAdvanced | src/entrypoints/popup/store/slices/effectsSlice.js:69-71 | only advanced changes, to the payload |
| EffectsSlice.Effects.SetIsChorus | src/entrypoints/popup/store/slices/effectsSlice.js:72-74 | only isChorus changes |
| EffectsSlice.Effects.SetIsConvolver | src/entrypoints/popup/store/slices/effectsSlice.js:75-77 | only isConvolver changes |
| EffectsSlice.Effects.SetIsCompressor | src/entrypoints/popup/store/slices/effectsSlice.js:78-80 | only isCompressor changes |
| EffectsSlice.Effects.ResetCompressor | src/entrypoints/popup/store/slices/effectsSlice.js:81-92 | only the compressor changes, to its defaults |
| EffectsSlice.Effects.ResetConvolver | src/entrypoints/popup/store/slices/effectsSlice.js:93-102 | only the convolver changes, to its defaults |
| EffectsSlice.Effects.ResetChorus | src/entrypoints/popup/store/slices/effectsSlice.js:103-111 | only the chorus changes, to its defaults |
| EffectsSlice.Effects.ResetPitch | src/entrypoints/popup/store/slices/effectsSlice.js:112-114 | only pitch changes, to `{ feedback: 0.4 }` |
| EffectsSlice.Effects.InitializeFromStorage | src/entrypoints/popup/store/slices/effectsSlice.js:115-125 | the state becomes the initialised state |
| EffectsSlice.Effects.LoadFulfilled | src/entrypoints/popup/store/slices/effectsSlice.js:128-245 | the state becomes the loaded state |
| EffectsSlice.MergeCheckedKeys | src/entrypoints/popup/store/slices/effectsSlice.js:151-179 | an unknown or ill-typed stored key keeps the prior value; an accepted one takes the stored value |
| EffectsSlice.LoadKeepsWellTyped | src/entrypoints/popup/store/slices/effectsSlice.js:144-232 | a load never adds an unknown convolver or chorus key, never changes a parameter's type and never stores NaN |
| EffectsSlice.AcceptedWellTyped | src/entrypoints/popup/store/slices/effectsSlice.js:151-179 | merging the accepted keys keeps the parameters well typed |
| EffectsSlice.DefaultsWellTyped | src/entrypoints/popup/store/slices/effectsSlice.js:7-31 | the defaults are well typed and a load over them keeps exactly their key sets |
| EffectsSlice.LoadedObjects | src/entrypoints/popup/store/slices/effectsSlice.js:132-142 | a stored pitch or advanced is taken exactly when it is a non-array object; the compressor and flags are never loaded |
| EffectsSlice.InitializedMerge | src/entrypoints/popup/store/slices/effectsSlice.js:115-125 | the spread keeps every current key and the stored keys override |
| UiSlice.Ui.constructor | src/entrypoints/popup/store/slices/uiSlice.js:5-13 | the slice starts in its initial state |
| UiSlice.Ui.SetIsLoaded | src/entrypoints/popup/store/slices/uiSlice.js:19-21 | only isLoaded changes, to the payload |
| UiSlice.Ui.SetIsLoading | src/entrypoints/popup/store/slices/uiSlice.js:22-24 | only isLoading changes, to the payload |
| UiSlice.Ui.SetTab | src/entrypoints/popup/store/slices/uiSlice.js:25-27 | only the tab changes, to the payload |
| UiSlice.Ui.SetIsEnable | src/entrypoints/popup/store/slices/uiSlice.js:28-30 | only isEnable changes, to the payload |
| UiSlice.Ui.SetCurrent | src/entrypoints/popup/store/slices/uiSlice.js:31-33 | only the current view changes, to the payload |
| UiSlice.Ui.IncrementCountClick | src/entrypoints/popup/store/slices/uiSlice.js:34-40 | only the counter changes: one up, or back to 0 once above 100 |
| UiSlice.Ui.ResetCountClick | src/entrypoints/popup/store/slices/uiSlice.js:41-43 | only the counter changes, to 0 |
| UiSlice.Ui.InitializeFromStorage | src/entrypoints/popup/store/slices/uiSlice.js:44-50 | a truthy tab replaces the tab; isEnable becomes the strict equality of the two ids when both are defined; nothing else changes |
| UiSlice.Ui.LoadPending | src/entrypoints/popup/store/slices/uiSlice.js:53-55 | only isLoading changes, to true |
| UiSlice.Ui.LoadFulfilled | src/entrypoints/popup/store/slices/uiSlice.js:56-100 | the state becomes the loaded state |
| UiSlice.Ui.LoadRejected | src/entrypoints/popup/store/slices/uiSlice.js:101-110 | the defaults stay and loading ends: isLoaded true, isLoading false |
| UiSlice.Ui.ToggleFulfilled | src/entrypoints/popup/store/slices/uiSlice.js:111-116 | isEnable takes the payload's newValue when there is one; nothing else changes |
| UiSlice.CountStaysBounded | src/entrypoints/popup/store/slices/uiSlice.js:34-40 | from [0, 101] the counter stays in [0, 101], wraps to 0 exactly from 101 and otherwise steps by one |
| UiSlice.LoadedTab | src/entrypoints/popup/store/slices/uiSlice.js:60-83 | after the load the tab is always an object: the stored or given tab when it has an id, url or title, else `{}` |
| UiSlice.LoadedEnable | src/entrypoints/popup/store/slices/uiSlice.js:85-99 | isEnable changes only when the stored current tab id and the tab's id are both numbers, and then to their equality; loading ends and nothing else changes |
| Hooks.SomeChanged | src/entrypoints/popup/store/hooks.js:24-28 | `eq.some(...)` is true exactly when some index from the start on has a change |
| Hooks.SelectedCurve | src/entrypoints/popup/store/hooks.js:16-22 | a curve exists only when loaded, a preset is selected and the list is non-empty, and then it is the eq of the first preset with the selected key |
| Hooks.ManualChanges | src/entrypoints/popup/store/hooks.js:15-29 | false when a guard fails or the preset has no eq; otherwise true exactly when some band differs from the preset's by more than 0.01 |
| Hooks.SelfNotDiffers | src/entrypoints/popup/store/hooks.js:27 | no value is more than 0.01 away from itself, NaN and the infinities included |
| Hooks.SameCurveNoChanges | src/entrypoints/popup/store/hooks.js:15-29 | a curve equal to the preset's at every shared index shows no manual change |
| Hooks.FiniteDistance | src/entrypoints/popup/store/hooks.js:27 | for finite numbers the test is the plain distance test |
| DeepMerge.DeepMerge | src/utils/deepMerge.ts:12-42 | the result is the sources poured left to right into `{}`, falsy sources skipped |
| DeepMerge.PourInto | src/utils/deepMerge.ts:18-38 | the key loop over one source, in the order the keys are listed, gives the per-key merge of that source into the accumulator |
| DeepMerge.KeysOf | src/utils/deepMerge.ts:18 | `Object.keys` lists every own key of the source exactly once |
| DeepMerge.PrefixIsPour | src/utils/deepMerge.ts:18-38 | writing the keys one by one in any repeat-free order gives the same map |
| DeepMerge.PourKey | src/utils/deepMerge.ts:19-37 | one turn of the loop changes only `result[key]`, to the merge of the source value over the value already there (`undefined` when absent) |
| DeepMerge.MergeValue | src/utils/deepMerge.ts:22-37 | the value for one key, by the four cases |
| DeepMerge.CloneObject | src/utils/deepMerge.ts:31-32 | cloning a lone plain object copies each of its keys into `{}` |
| DeepMerge.CloneIsIdentity | src/utils/deepMerge.ts:27-36 | a cloned value or array slice is structurally equal to the original |
| DeepMerge.AssignCases | src/utils/deepMerge.ts:22-37 | two plain objects merge recursively; otherwise the source value arrives unchanged |
| DeepMerge.PourEmpty | src/utils/deepMerge.ts:31-32 | merging a source into `{}` gives back the source's fields |
| DeepMerge.MergeOne | src/utils/deepMerge.ts:12-42 | `deepMerge(x)` equals `x`'s fields, and a falsy single source gives `{}` |
| DeepMerge.MergedKeys | src/utils/deepMerge.ts:15-39 | a key is in the result if and only if some source has it |
| DeepMerge.LastWins | src/utils/deepMerge.ts:15-39 | the last source holding a key decides it when its value there is not a plain object |
| DeepMerge.ObjectsMerge | src/utils/deepMerge.ts:23-25 | a key that is a plain object in the merge so far and in the next source is merged recursively |
| DeepMerge.FalsySkipped | src/utils/deepMerge.ts:16 | a falsy source anywhere in the list changes nothing |
| Throttle.Invoke | src/utils/throttle.ts:25-37 | `func` runs if and only if `wait` has elapsed and a call is pending; it then clears the pending call and records the time, and otherwise nothing changes |
| Throttle.Throttled.constructor | src/utils/throttle.ts:18-23 | no timer, no call recorded, nothing pending |
| Throttle.Throttled.InvokeFunc | src/utils/throttle.ts:25-37 | the closure and the call made are those of `Invoke` |
| Throttle.Throttled.Call | src/utils/throttle.ts:39-70 | one call of the throttled function keeps the timer invariant and moves the closure as the leading, immediate-trailing, scheduled and no-trailing branches say |
| Throttle.Throttled.Fire | src/utils/throttle.ts:64-67 | the timer callback invokes and clears the timer, keeping the invariant |
| Throttle.Throttled.Cancel | src/utils/throttle.ts:72-80 | timer and pending call gone, last call time 0 |
| Throttle.Throttled.Flush | src/utils/throttle.ts:82-94 | a pending call runs at once and is cleared, with the time recorded; the timer is dropped in every case |
| Throttle.CallKeepsInv | src/utils/throttle.ts:39-70 | a call keeps the invariant: a timer exists only with trailing calls on, a pending call and a due time `wait` after the last call |
| Throttle.FireKeepsInv | src/utils/throttle.ts:64-67 | the timer callback keeps the invariant |
| Throttle.CancelAndFlushKeepInv | src/utils/throttle.ts:72-94 | `cancel` and `flush` keep the invariant |
| Throttle.LeadingEdge | src/utils/throttle.ts:42-46 | the first call with `leading` runs `func` with its arguments and records the time, nothing else |
| Throttle.TrailingEdge | src/utils/throttle.ts:48-68 | past the leading edge with `trailing`, a call after `wait` has passed runs `func` with its own arguments and leaves nothing pending; an earlier call schedules a timer for `lastCallTime + wait` holding the newest arguments |
| Throttle.NoTrailing | src/utils/throttle.ts:48-53 | without `trailing` a call past the leading edge only stores its arguments |
| Throttle.TimerDelivers | src/utils/throttle.ts:64-67 | a timer firing when due delivers the pending arguments and leaves no timer and nothing pending |
| Throttle.CancelReArms | src/utils/throttle.ts:72-80 | `cancel` returns the closure to its initial state, so the next call runs at once on the leading edge |
| Throttle.FlushOnce | src/utils/throttle.ts:82-94 | `flush` calls `func` exactly with the pending call, leaves neither timer nor pending call, and a second flush calls nothing |
| Throttle.NoTrailingNoCalls | src/utils/throttle.ts:39-70 | with `trailing` off and a call already recorded, no sequence of calls and timer events ever reaches `func` |
| StorageMiddleware.AutoLoad | src/entrypoints/popup/store/middleware/chromeStorageMiddleware.js:14-66 | a preset is loaded if and only if the action is `setSelectedPreset` with a key different from the one before, the popup is loaded, the list non-empty and the preset found with a curve; the loaded key is the payload |
| StorageMiddleware.ManualCheck | src/entrypoints/popup/store/middleware/chromeStorageMiddleware.js:69-98 | a flag is dispatched only after one of the five check actions and only when it differs from the stored flag; it is the manual-change predicate of the state read |
| StorageMiddleware.Customs | src/entrypoints/popup/store/middleware/chromeStorageMiddleware.js:135-138 | a preset is kept if and only if it is in the list and custom |
| StorageMiddleware.Dispatched | src/entrypoints/popup/store/middleware/chromeStorageMiddleware.js:4-149 | a dispatch fails exactly when a reducer throws, and only `deletePreset` can throw |
| StorageMiddleware.Store.constructor | src/entrypoints/popup/store/middleware/chromeStorageMiddleware.js:4-6 | the three slices start in their initial states with no storage writes |
| StorageMiddleware.Store.ReduceEqualizer | src/entrypoints/popup/store/slices/equalizerSlice.js:45-154 | the equalizer slice moves as its reducer says, and stays when the reducer throws |
| StorageMiddleware.Store.ReduceEffects | src/entrypoints/popup/store/slices/effectsSlice.js:45-125 | the effects slice moves as its reducer says |
| StorageMiddleware.Store.Reduce | src/entrypoints/popup/store/middleware/chromeStorageMiddleware.js:8 | `next(action)` applies the root reducer and reports whether it threw, leaving the state unchanged then |
| StorageMiddleware.Store.LoadStep | src/entrypoints/popup/store/middleware/chromeStorageMiddleware.js:14-66 | the store and the write log move as the auto-load outcome says |
| StorageMiddleware.Store.FlagStep | src/entrypoints/popup/store/middleware/chromeStorageMiddleware.js:77-98 | the store and the write log move as the manual-change outcome says |
| StorageMiddleware.Store.Continue | src/entrypoints/popup/store/middleware/chromeStorageMiddleware.js:11-148 | the three steps after `next` together move the store and the write log as the middleware's outcome says |
| StorageMiddleware.Store.Dispatch | src/entrypoints/popup/store/middleware/chromeStorageMiddleware.js:4-149 | a dispatch ends in the state and the appended writes of `Dispatched`, or changes nothing when a reducer throws |
| StorageMiddleware.FlagDispatch | src/entrypoints/popup/store/middleware/chromeStorageMiddleware.js:69-117 | a follow-up `setHasManualChanges` only stores its flag: no load, no check, no write |
| StorageMiddleware.AutoLoadConditions | src/entrypoints/popup/store/middleware/chromeStorageMiddleware.js:31-37 | an auto-load implies the action is `setSelectedPreset` and all five conditions hold |
| StorageMiddleware.CheckedTypes | src/entrypoints/popup/store/middleware/chromeStorageMiddleware.js:69-75 | the check runs only for the five listed action types |
| StorageMiddleware.NotSynced | src/entrypoints/popup/store/middleware/chromeStorageMiddleware.js:101-117 | `setPresets`, `setHasManualChanges` and `setIsLoaded` are not in the sync list |
| StorageMiddleware.Synced | src/entrypoints/popup/store/middleware/chromeStorageMiddleware.js:101-117 | every other action type is in the sync list |
| StorageMiddleware.StoredTypes | src/entrypoints/popup/store/middleware/chromeStorageMiddleware.js:119-140 | a write happens if and only if the action is not one of the three unsynced types, and holds the persisted fields of the state read |
| StorageMiddleware.EqualizerTypesWithoutPreset | src/entrypoints/popup/store/middleware/chromeStorageMiddleware.js:135 | the other equalizer action types do not contain `Preset` |
| StorageMiddleware.OtherTypesWithoutPreset | src/entrypoints/popup/store/middleware/chromeStorageMiddleware.js:135 | no effects or ui action type contains `Preset` |
| StorageMiddleware.PresetTypes | src/entrypoints/popup/store/middleware/chromeStorageMiddleware.js:135 | an action type contains `Preset` if and only if it is one of the six preset actions |
| StorageMiddleware.StoredPresets | src/entrypoints/popup/store/middleware/chromeStorageMiddleware.js:135-138 | a write carries `customPresets` if and only if the action is one of the five synced preset actions, and then exactly the custom presets |
| StorageMiddleware.FlaggingOnlyFlags | src/entrypoints/popup/store/middleware/chromeStorageMiddleware.js:77-98 | the check changes at most the manual-change flag and writes nothing to storage |
| StorageMiddleware.SnapshotsAgreeWithoutAutoLoad | src/entrypoints/popup/store/middleware/chromeStorageMiddleware.js:11 | without an auto-load, reading the snapshot or the current state gives the same outcome |
| StorageMiddleware.LoadDispatch | src/entrypoints/popup/store/middleware/chromeStorageMiddleware.js:49 | the follow-up `loadPreset` loads the preset, may set the flag, and writes the loaded state with its custom presets |
| StorageMiddleware.AutoLoadApplies | src/entrypoints/popup/store/middleware/chromeStorageMiddleware.js:37-49 | selecting a different preset that has a curve loads that curve and keeps the selection |
| StorageMiddleware.FlaggingAgrees | src/entrypoints/popup/store/middleware/chromeStorageMiddleware.js:77-98 | a check that reads the state it updates leaves the flag equal to the manual-change predicate of that state |
| StorageMiddleware.FreshFlagAgrees | src/entrypoints/popup/store/middleware/chromeStorageMiddleware.js:77-98 | reading the state again after the auto-load, the final flag equals the manual-change predicate of the final state |
| StorageMiddleware.FreshWriteIsFinal | src/entrypoints/popup/store/middleware/chromeStorageMiddleware.js:119-140 | reading the state again after the auto-load, the last storage write holds the final state's persisted fields |
| StorageMiddleware.FreshTail | src/entrypoints/popup/store/middleware/chromeStorageMiddleware.js:77-140 | after the check on a state, the write is that state with its final flag |
| StorageMiddleware.WrittenIgnoresFlag | src/entrypoints/popup/store/middleware/chromeStorageMiddleware.js:122-132 | the storage record does not depend on the manual-change flag |
| StorageMiddleware.DemoSelects | src/entrypoints/popup/store/middleware/chromeStorageMiddleware.js:31-49 | in the demo state, selecting `custom_1` triggers the auto-load of its curve |
| StorageMiddleware.DemoStaleCheck | src/entrypoints/popup/store/middleware/chromeStorageMiddleware.js:77-95 | the stale check compares the flat curve with the loaded one and raises the flag |
| StorageMiddleware.StaleSnapshotMisflags | src/entrypoints/popup/store/middleware/chromeStorageMiddleware.js:11-140 | as written, selecting `custom_1` loads its curve yet ends with the manual-change flag raised and a last write holding the old flat curve |
| Helpers.Round | src/utils/helpers.ts:2 | `Math.round` gives the integer within half a unit of `x`, halves rounding up |
| Helpers.Ceil | src/utils/helpers.ts:6 | `Math.ceil` gives the least integer not below `x` |
| Helpers.Digits | src/utils/helpers.ts:2 | the decimal text of a whole number is a non-empty run of digits without a leading zero |
| Helpers.DigitsRoundTrip | src/utils/helpers.ts:2 | the printed digits read back as the number |
| Helpers.IntTextRoundTrip | src/utils/helpers.ts:2 | an integer printed in a template literal, sign included, reads back as itself |
| Helpers.FormatVolumePercent | src/utils/helpers.ts:1-3 | the label ends in `%` and what precedes it reads back as the rounded percentage |
| Helpers.Percent | src/utils/helpers.ts:6 | on a proper range the ceiling of the share times 100; on a zero range `NaN` exactly when the value equals `min`, else the infinity of the value's side |
| Helpers.PercentInRange | src/utils/helpers.ts:5-8 | a value inside a proper range gives a whole percentage from 0 to 100, the least one not below its share, 0 at `min` and 100 at `max` |
| Helpers.GradientStops | src/utils/helpers.ts:7 | the gradient text places the same printed percentage at both colour stops |
| Helpers.BandValues | src/utils/helpers.ts:17-28 | the settings' band fields as a list of ten |
| Helpers.PresetTable | src/utils/constants.ts:24-47 | every preset in the table has ten values |
| Helpers.ConvertPresetToSettings | src/utils/helpers.ts:10-29 | succeeds if and only if the name is in the table, then the ten fields are the table's values in band order; an unknown name gives `Unknown preset: <name>` |
| Helpers.FlatIsZero | src/utils/helpers.ts:10-29 | example: the flat preset converts to all-zero bands and a name with other capitals is refused (the all-input fact is `ConvertPresetToSettings`) |
| PresetList.Without | src/utils/chromeStorage.ts:44-47 | the filter keeps exactly the presets whose id differs, and no longer list |
| PresetList.WithoutDistributes | src/utils/chromeStorage.ts:46 | filtering a concatenation filters each part, so the kept presets stay in order |
| PresetList.WithoutCount | src/utils/chromeStorage.ts:46 | exactly the presets carrying the id are dropped, none is left |
| PresetList.CountDistributes | src/utils/chromeStorage.ts:46 | the number of presets with an id adds over concatenation |
| PresetList.WithoutAbsent | src/utils/chromeStorage.ts:46 | a list without the id is left as it is |
| PresetList.AddedUnique | src/utils/chromeStorage.ts:38-42 | after `addPreset` exactly one preset has the id, it is the new one and it is last, the others kept in order |
| PresetList.AddedIdempotent | src/utils/chromeStorage.ts:38-42 | adding the same preset twice is adding it once |
| PresetList.Find | src/utils/chromeStorage.ts:63 | `find` gives nothing if and only if no preset has the id, else a preset of the list with that id |
| PresetList.FindFirst | src/utils/chromeStorage.ts:63 | `find` gives the first preset with the id |
| PresetList.FindAfterUpdate | src/utils/chromeStorage.ts:38-47 | a preset just added is found under its id, and a deleted id is found no more |
| ChromeStorage.SettingsIn | src/utils/chromeStorage.ts:17 | the stored settings, or the default when the key is absent |
| ChromeStorage.PresetsIn | src/utils/chromeStorage.ts:29 | the stored presets, or the default list when the key is absent |
| ChromeStorage.ActiveIn | src/utils/chromeStorage.ts:52 | the stored active id, or `null` when the key is absent |
| ChromeStorage.Exported | src/utils/chromeStorage.ts:61-70 | fails with `Preset not found` if and only if no preset has the id, else gives a preset of the list with that id |
| ChromeStorage.FreshIdsDiffer | src/utils/chromeStorage.ts:81 | ids made at different clock readings differ |
| ChromeStorage.Imported | src/utils/chromeStorage.ts:72-83 | a parse error propagates; a draft without a non-empty name or without settings fails with `Invalid preset format`; otherwise a custom preset with a fresh id, the draft's name and settings |
| ChromeStorage.Storage.constructor | src/utils/chromeStorage.ts:13 | storage holds the given initial map and defaults |
| ChromeStorage.Storage.GetSettings | src/utils/chromeStorage.ts:14-18 | reads the settings key or its default |
| ChromeStorage.Storage.SetSettings | src/utils/chromeStorage.ts:20-24 | only the settings key changes, to the new settings |
| ChromeStorage.Storage.GetPresets | src/utils/chromeStorage.ts:26-30 | reads the presets key or its default |
| ChromeStorage.Storage.SetPresets | src/utils/chromeStorage.ts:32-36 | only the presets key changes, to the new list |
| ChromeStorage.Storage.AddPreset | src/utils/chromeStorage.ts:38-42 | the presets key becomes the old list with the id replaced and the preset appended; nothing else changes |
| ChromeStorage.Storage.DeletePreset | src/utils/chromeStorage.ts:44-47 | the presets key becomes the old list without the id; nothing else changes |
| ChromeStorage.Storage.GetActivePreset | src/utils/chromeStorage.ts:49-53 | reads the active id or `null` |
| ChromeStorage.Storage.SetActivePreset | src/utils/chromeStorage.ts:55-59 | only the active key changes, to the given id or `null` |
| ChromeStorage.Storage.ExportPreset | src/utils/chromeStorage.ts:61-70 | the outcome of `Exported` on the stored list, storage unchanged |
| ChromeStorage.Storage.ImportPreset | src/utils/chromeStorage.ts:72-87 | the outcome of `Imported`; on success the new preset is added, on failure storage is untouched |
| ChromeStorage.WriteThenRead | src/utils/chromeStorage.ts:14-59 | each setter's value is read back by its getter, and the other two keys read as before |
| ChromeStorage.ImportThenExport | src/utils/chromeStorage.ts:61-87 | an imported preset is stored once, last, and exporting its id gives it back |
| ChromeStorage.DeleteThenExport | src/utils/chromeStorage.ts:44-70 | after deleting an id exporting it fails, and the other presets remain in order |
| EqualizerPanel.UpdateBand | src/entrypoints/popup/components/Equalizer.tsx:7-11 | the slider handler's patch carries only `bands`, of the same length, with the moved band at the new gain |
| EqualizerPanel.ResetBands | src/entrypoints/popup/components/Equalizer.tsx:13-16 | the Reset handler's patch carries only `bands`, of the same length, every gain 0 |
| EqualizerPanel.UpdateBandChangesOne | src/entrypoints/popup/components/Equalizer.tsx:7-11 | the patch carries only `bands`, same length; the moved band has the new gain and keeps its frequency and label, every other band is unchanged |
| EqualizerPanel.UpdateBandSameGain | src/entrypoints/popup/components/Equalizer.tsx:7-11 | moving a band to its own gain gives the same bands |
| EqualizerPanel.ResetClearsGains | src/entrypoints/popup/components/Equalizer.tsx:13-16 | the patch carries only `bands`, same length, every gain 0 and every frequency and label kept |
| EqualizerPanel.ResetIdempotent | src/entrypoints/popup/components/Equalizer.tsx:13-16 | resetting twice is resetting once, and moving any band of a reset list to 0 changes nothing |
| Home.Patched | src/entrypoints/popup/components/Home.tsx:11-16 | `updateSettings` keeps the active id, the preset list and the other fields, takes the patch's bands when it carries them, and the empty patch changes nothing |
| Home.ApplyPreset | src/entrypoints/popup/components/Home.tsx:21-27 | the current settings become the preset's and the active id its id; `enabled`, the list and the other fields stay |
| Home.SaveAsPreset | src/entrypoints/popup/components/Home.tsx:32-50 | one more preset, custom, with the given name, the current settings and the id from the clock; nothing else changes |
| Home.DeletePreset | src/entrypoints/popup/components/Home.tsx:55-61 | the list keeps exactly the presets with another id, the active id is cleared only when it was this id, nothing else changes |
| Home.ImportPreset | src/entrypoints/popup/components/Home.tsx:66-89 | fails, with the prefixed alert text, exactly when the parse or the format check fails; otherwise one more custom preset and nothing else changes |
| Home.ExportPreset | src/entrypoints/popup/components/Home.tsx:94-110 | the alert text "Preset not found" on failure; otherwise a stored preset with the id, in `equalizer-preset-<id>.json` |
| Home.PatchOverrides | src/entrypoints/popup/components/Home.tsx:11-16 | `updateSettings` overrides exactly the keys the patch carries and keeps the rest; the empty patch changes nothing |
| Home.PatchesCompose | src/entrypoints/popup/components/Home.tsx:11-16 | two updates are one update with the combined patch, and repeating an update changes nothing more |
| Home.ApplyPresetIsPatch | src/entrypoints/popup/components/Home.tsx:21-27 | applying a preset is an update with its settings plus the active id; the five settings become the preset's and `enabled`, the list and the other fields stay |
| Home.SaveAppendsOne | src/entrypoints/popup/components/Home.tsx:32-50 | saving appends exactly one custom preset with a fresh id holding the current five settings, and changes nothing else |
| Home.SaveThenApply | src/entrypoints/popup/components/Home.tsx:21-50 | applying a preset just saved changes only the active id, and exporting its id finds it when no older preset has that id |
| Home.DeleteRemoves | src/entrypoints/popup/components/Home.tsx:55-61 | every preset with the id goes, the others stay in order, the active id is cleared exactly when it was that id, nothing else changes |
| Home.ImportAppends | src/entrypoints/popup/components/Home.tsx:66-89 | import saves if and only if the parse succeeds with a non-empty name and settings, then appends one custom preset with a fresh id; a bad format gives the alert text |
| Home.ExportFindsId | src/entrypoints/popup/components/Home.tsx:94-110 | export fails with the alert text exactly when no preset has the id, else downloads that preset under `equalizer-preset-<id>.json` |
| Home.EqualizerEditsOnlyBands | src/entrypoints/popup/components/Equalizer.tsx:7-16 | a slider move or a reset, passed through `updateSettings`, changes the bands as the panel says and nothing else |

## Left out

- Signal processing is not modelled: filter coefficients, the compressor, delay lines, AudioParam automation and block rendering. Node parameters are plain fields.
- The Tuna effects library is not modelled. The `change*` commands that write Tuna effect parameters change no modelled state; their parameters belong to the library. They reply `{ status: true }`, except `change_compressor` with an `undefined` or `null` value. In that case `changeCompressor` throws while reading `threshold`, before any reply is sent, and `Offscreen.Document.Handle` gives `Threw` with nothing changed.
- Jungle's internal node graph is not modelled: its delay nodes, looping sources and the connections between them. The model keeps the buffer contents, the start times and the gains `setPitchOffset` writes.
- Trigonometry and `sqrt` are not evaluated. A pan gain is kept as the `cos`/`sin` term it is computed from, and the fade buffer's `sqrt` is a function parameter.
- Floating point is not modelled: arithmetic is on unbounded reals. This covers 32-bit AudioParam storage, `toFixed` and `Math.round` on binary fractions, so `RoundTenth` is exact decimal rounding.
- Engine.CreatePitch: models the pitch block as it is evidently meant to run. In the source the name `Jungle` is unbound in AudioEngine.ts, which imports Jungle.ts only for its side effects, so `new Jungle` throws a ReferenceError and no engine with `isPitch` can be made; `Engine.NewEngineAsWritten` models that, and the pitch branches of `ChangePitch`, `Reset` and `EffectsOrder` are reachable only in the intended design. Both callers create engines with `isPitch: false`.
- Engine.PitchArgument: a `null` or `undefined` argument is not modelled. In the source, `pitchValue.value` (src/entrypoints/offscreen/utils/AudioEngine.ts:488) throws a TypeError for it, while the model returns the argument. The line runs only when the engine has a pitch shifter, which as written it never has.
- Pitch.TruncateToInt: states `parseInt(a.toString(), 10)` only for numbers that `toString` writes without an exponent. For magnitudes below 1e-6 or from 1e21 up, `parseInt` reads the digits before the `e`, so 5e-7 gives 5 and 1e21 gives 1, where the model truncates (0 and 10^21). `setPitchTranspose` has no caller in the repository.
- Pitch.SetPitchOffset: the module-level `previousPitch` is not modelled, because it is written and never read.
- Extension messaging, `getUserMedia`, `chrome.storage` round trips, `console` logging and the clocks are outside the model. Stream capture arrives as an outcome parameter. `main.ts` reads stored settings through the `Worker` parameter (saved settings, defaults, whether the stream opened). `Date.now()` is a parameter.
- Timers and async ordering are not modelled: `setTimeout` delays, promise sequencing and `mediaStream.oninactive` cleanup. Awaited calls run in sequence. A throttle timer is kept as its due time, and its callback is an explicit `Fire` step.
- Offscreen.Document.Handle: requires the message value to have the type its command reads (`MessageOk`, `Fits`): a number, a flag or ten band gains. The source would pass any JSON value on to the engine.
- Offscreen.Document.Handle: on re-capture of a registered tab the old engine is replaced without being closed; this matches the source but the old engine's resources are outside the model.
- Captured.CapturedAudioObject.Perform: message values are limited to `Arg` (missing, `null`, number, boolean), and a preset is assumed to name all ten bands (`MessageOk`). `setMono` and `setInvert` store the truthiness of the value where the source stores the raw value, so `getMono` replies with a boolean.
- CapturedTabs.Registry.Handle: message types are a `Command` datatype rather than strings, and an unknown type does nothing.
- Processor.AudioProcessor.ConnectMedia: of the failures the `try`/`catch` (src/utils/audioProcessor.ts:23-53) absorbs, only a second `createMediaElementSource` on an element already bound to a source node is modelled (nothing is stored and the element stays unprocessed); a failing `AudioContext` constructor is not.
- Processor.AudioProcessor.Suspend: the kept contexts are not closed by `DisconnectAll`; the corrected design only covers disabling and re-enabling.
- Processor.AudioProcessor.DisconnectAll: disconnects every media element; the order `Map.forEach` visits them in is not modelled.
- Processor.AudioNodes.Rebuild: the stereo panner's own clamping of `pan` is outside the model, and the freshness of the new stage nodes is stated only as ids drawn from a creation counter.
- EqualizerSlice: payloads are typed where their only dispatchers pass one shape. `setHasManualChanges` takes a boolean. `setPresets` and `addPreset` take presets with only key, name, eq and isCustom (nothing reads other fields). `initializeFromStorage` takes an already shaped payload, and no file in the model dispatches it. `updateEqValue` takes a natural-number index. `updatePreset` takes a key, an optional list of gains and an optional string name.
- EffectsSlice: the convolver, compressor and chorus are plain objects from names to values. The warnings logged for rejected stored values are not modelled.
- EqualizerSlice.SystemPresets: of the 22 built-in presets only the `default` entry's properties are stated; the others are data. They differ from `EQ_PRESETS` in `constants.ts` for some presets, and the two tables are used by different code.
- UiSlice: the constant `tabs` list and `toggleEnable.rejected` are not modelled; the list is never changed and the rejected case only logs.
- Json.StrictEquals: an object or array never equals anything under `===` in the model, because object identity is not modelled; the source compares only strings there.
- Hooks.ManualChanges: `some()` skipping the holes of a sparse array is not modelled, since the arrays are dense.
- The `audioSyncMiddleware`, `iconUpdateMiddleware` and the thunks are not modelled: they only send messages or set the badge.
- DeepMerge.DeepMerge: array sources and string sources are not modelled, so their index keys as own keys are not modelled either. Key order in the result is not modelled: a result is a map.
- DeepMerge.DeepMerge: an own `__proto__` key in a source, as `JSON.parse` makes one, is modelled as an ordinary key. In the source, `result['__proto__']` reads `Object.prototype` and the assignment replaces the result's prototype, so the result gets no own `__proto__` key and later keys may read inherited values. Prototypes are not modelled.
- DeepMerge.MergedKeys: "a key is in the result exactly when some source has it" is proved for the model, where `__proto__` is an ordinary key; for the source it holds only for keys other than `__proto__`.
- Throttle.Throttled.Call: `lastThis` is folded into the pending call, and `func`'s return value is not modelled; each step reports the call `func` received.
- Helpers.ConvertPresetToSettings: keys inherited from `Object.prototype` (such as `toString`) are not modelled; every name outside the table counts as unknown.
- ChromeStorage.Storage.ExportPreset: returns the preset itself, not the text of `JSON.stringify`. `DEFAULT_SETTINGS` and `DEFAULT_PRESETS` are constructor arguments. A stored `null` under the settings or presets key, which `??` would replace by the default, cannot be represented.
- StorageMiddleware.Action: lists only the action types the middleware examines (the auto-load, check and sync lists) and three types outside the sync list (`setPresets`, `setHasManualChanges`, `setIsLoaded`). Every other action, such as `effects/setPitch` or the ui reducers, passes through `next`, is not in the sync list (src/entrypoints/popup/store/middleware/chromeStorageMiddleware.js:101-117) and so writes nothing; those actions are not enumerated.
- ChromeStorage.Imported: fields of the parsed object other than `name` and `settings` (spread in by `...parsed`) are not kept. The parse result is typed: `name` is a string and `settings` are preset settings when present. The source tests only truthiness, so it also stores a numeric name or non-object settings such as `{"name": 7, "settings": 1}`; those values are not modelled, and importing is not a check of the settings' shape.
- Home.ImportAppends: inherits the typed parse result of `ChromeStorage.Imported`. A truthy name that is not a string, or truthy settings that are not preset settings, passes the check in `importPreset` and is stored by the source; the model cannot represent either.
- Home: `saveSettings` persistence, the `alert` calls and the Blob download are outside the model; each handler returns the settings object or the alert text. A patch key set to an explicit `undefined` is not modelled.
- EqualizerPanel.UpdateBand: requires the index to be within the band list. The slider for band `i` exists only for existing bands.
- UI components, content-script DOM observers, build scripts and configuration are not part of this model.

## Findings

| source | as written | input that shows it | evidently intended | confidence | as-written member | corrected member |
|---|---|---|---|---|---|---|
| src/entrypoints/popup/store/middleware/chromeStorageMiddleware.js:11-140 | The middleware reads `state` once, after `next(action)`. It then dispatches `loadPreset` and still uses that `state` for the manual-change check and for the storage write. | The flat `default` preset is selected and the custom preset `custom_1` sets every band to +6. Then `setSelectedPreset("custom_1")` arrives. | After the auto-load, `hasManualChanges` should be false, because the curve equals the preset's curve. The last storage write should hold the loaded curve. As written, the flag ends true and the last write holds the old flat curve. The intended behaviour re-reads the state after the nested dispatch. | not executed | StorageMiddleware.StaleSnapshotMisflags | StorageMiddleware.FreshFlagAgrees |
| src/entrypoints/content/index.ts:81-82 | A disable calls `disconnectMedia`, which closes the element's context, and then deletes the element from `processedMedia` so that it can be connected again later. The next `connectMedia` of that element calls `createMediaElementSource` again (src/utils/audioProcessor.ts:25). | An element is connected while enabled. A `SETTINGS_UPDATE` with `enabled: false` arrives, then one with `enabled: true`, and the element is processed again. | The browser binds an element to one source node for good and throws `InvalidStateError` on the second call. The `catch` at src/utils/audioProcessor.ts:51-53 runs before `nodes.set`, so the element stays unprocessed. The comment asks for reconnection: keep the context open on disable and rewire it on re-enable. | not executed | Processor.AudioProcessor.DisableThenEnable | Processor.AudioProcessor.SuspendThenReconnect |
| src/entrypoints/offscreen/utils/AudioEngine.ts:1-125 | Line 1 imports Jungle.ts only for its side effects (`import './Jungle'`), and Jungle.ts exports its class as the default export without binding any global. Line 125 then calls `new Jungle(this.audioContext)`, with the type error suppressed by a comment. | An engine is created with settings whose `isPitch` is true. | The name is unbound, so the constructor throws a ReferenceError and no engine exists, with an `AudioContext` already opened. Evidently intended: the pitch shifter of Jungle.ts, valid, at value 0, with offset 0, which needs a default import `import Jungle from './Jungle'`. | not executed | Engine.NewEngineAsWritten | Engine.CreatePitch |
