# viser, modelled in Dafny

viser is a 3D visualisation library: a Python server queues scene and GUI messages
to browser clients over a websocket, and the React client applies them to its scene
tree and GUI stores. This project models the bookkeeping at the heart of both sides:

- **Client message application.**
  - The message handler of the first client (`WebsocketInterface`) synthesises missing parents, reorders quaternions and ignores stale updates.
  - Both versions of the GUI store (`GuiState`, `GuiStateLegacy`, sharing `GuiStoreCommon`).
  - The scene-tree table's rows and visibility overrides (`SceneTreeTable`).
  - The server-address rules and the pointer-drag state machine of `App`.
  - The recording playback scheduler (`FilePlayback`).
- **Server outbound buffers.**
  - The three redundancy-culling message buffers: `LegacyMessageBuffer`, `InfraMessageBuffer` and `MessageBuffer`, sharing `BufferCore`.
  - The websocket infrastructure (`Infra`): handler registry, exclusion filter, HTTP path mapping, port retries and the window collector.
- **Server GUI and handle state.**
  - Both message APIs (`MessageApiLegacy`, `MessageApi`) and their shared colour packing (`Colors`).
  - Both GUI handle modules (`Gui`, `GuiHandles`) and their shared value rules (`HandleRules`).
  - Notification handles (`NotificationHandle`) and transform-control handles (`SceneHandle`).
  - Everything is sent through `ServerMessages.Outbox`.
- **Splat ordering.**
  - The WebAssembly counting sort over 16-bit depth bins (`WasmSorter`).
  - The texture layout and sort-result state of the splat renderer (`GaussianSplats`).
- **Name helpers.**
  - Icon enum names (`Icons`).
  - URDF frame names and joint limits (`Urdf`).

The form of each module follows its source:
- **Objects whose fields the source updates** are classes whose methods are proved against pure functions of the old state: the stores, handles, buffers, cursors and the sorter.
- **Loops** are methods with invariants: the counting sort, precision digits, playback, the frame-name walk, port binding and the message filter.
- **Expression-level code** is functions with lemmas.

Where a comment or docstring and the code disagree, the model follows the code:
- `_viser_name_from_frame` documents "/base_link/shoulder/elbow", but the loop stops at the base frame, so the name is "/shoulder/elbow".
- A comment in `App.tsx` says an https page connects over ws, but the two replacements give wss.
- Pointer-up in `App.tsx` does not clear the recorded rays. The next pointer-down replaces them.
- Setting a notification's `auto_close` to 0 while it is `False` sends nothing, because `0 == False` in Python.
- `GuiTabHandle.remove` finds the tab with `list.index`, which raises before the `!= -1` check is reached.
- The legacy buffer's removal cascade compares `str(type(message)) + name` by plain string prefix.
  - It reaches only earlier removal messages.
  - "/a" also matches "/ab".
- `removeGui` on an unknown id throws inside the store update, so the store is left unchanged. The model returns `false` there.

## Model

| member | source | states |
|---|---|---|
| App.DropTrailingSlash | src/viser/client/src/App.tsx:106 | a server address ending in "/" loses exactly that one "/"; any other address is kept as is |
| App.DefaultServerFromUrl | src/viser/client/src/App.tsx:99-108 | the derived server address never contains "?" (the query is cut) |
| App.ReplaceSchemes | src/viser/client/src/App.tsx:103-104 | an address containing neither "http://" nor "https://" is left unchanged by the two scheme replacements |
| App.InitialServer | src/viser/client/src/App.tsx:109-113 | the first `server` search parameter wins; with none, the server is exactly the address derived from the page URL, which carries no query |
| App.CutQuery | src/viser/client/src/App.tsx:105 | `split("?")[0]` keeps exactly the part before the query |
| App.NoHttpInHttpsPage | src/viser/client/src/App.tsx:103 | in "https://host/?…", no "http://" starts inside the scheme, the host or the slash after it |
| App.HttpStepOfHttpsPage | src/viser/client/src/App.tsx:103 | on an https page address, replacing "http://" can only touch the query |
| App.HttpsStep | src/viser/client/src/App.tsx:104 | a leading "https://" becomes "wss://" |
| App.SchemesOfHttpsPage | src/viser/client/src/App.tsx:103-104 | the two scheme replacements turn "https://host/" into "wss://host/" and leave a query-only tail |
| App.DefaultServerOfHttpsPage | src/viser/client/src/App.tsx:99-108 | "https://host/?…" connects to "wss://host" |
| App.DefaultServerOfHttpPage | src/viser/client/src/App.tsx:99-108 | "http://host/?…" connects to "ws://host" |
| App.PointerUpMessages | src/viser/client/src/App.tsx:333-352 | a click message first when exactly one ray was recorded, and always a final scribble message with all rays |
| App.DragInfo.constructor | src/viser/client/src/App.tsx:142-147 | empty lists, lock 0, camera controls on, nothing sent |
| App.DragInfo.PointerDown | src/viser/client/src/App.tsx:240-271 | when enabled, valid and unlocked: lock taken, camera controls off, lists reset to the one new ray and position; otherwise nothing changes |
| App.DragInfo.PointerMove | src/viser/client/src/App.tsx:272-299 | while dragging, a valid move more than 3 px from the last sample on some axis appends one ray and position; anything else changes nothing; lists stay parallel |
| App.DragInfo.PointerUp | src/viser/client/src/App.tsx:318-359 | with a held lock and recorded rays: sends the pointer-up messages, re-enables camera controls and releases the lock; the lists are kept |
| BufferCore.PushSpec | viser/infra/_async_message_buffer.py:23-36 | `push` takes the counter as the new id and bumps it, stores the message, maps its key to it, drops the older message with the same non-None key, keeps every other message (every keyless one included), and preserves the buffer's index invariant |
| BufferCore.Push | src/viser/infra/_async_message_buffer.py:37-51 | the corrected push bumps the counter by one, maps the message's key (None included) to the new id, and buffers no id other than the old ones and the new one |
| BufferCore.PushAsWritten | src/viser/infra/_async_message_buffer.py:37-51 | push as written raises exactly when the key maps to an id that is no longer buffered; whenever it does not raise it agrees with the corrected push |
| BufferCore.AtMostOnePerKey | viser/infra/_async_message_buffer.py:30-36 | in an indexed buffer two buffered messages with the same non-None redundancy key are the same message |
| BufferCore.PushAsWrittenOnCompleteBuffer | src/viser/infra/_async_message_buffer.py:37-51 | while every mapped key's message is still buffered, `push` as written never raises and agrees with the corrected push, and keeps the buffer complete |
| BufferCore.PushAfterSendRaises | src/viser/infra/_async_message_buffer.py:49-50 | after a non-persistent consumer pops a sent message, pushing a message with the same key makes `message_from_id.pop(old_id)` raise, whereas the corrected push stores it and keeps the index |
| BufferCore.DropKeepsIndexed | src/viser/infra/_async_message_buffer.py:89-90 | popping sent messages from the buffer keeps the index invariant |
| BufferCore.DeliverableSound | src/viser/infra/_async_message_buffer.py:78-93 | a consumer visiting ids lo..hi-1 sends only buffered messages with ids in range not excluded for its client, at most hi - lo of them, none when hi <= lo |
| BufferCore.DeliverableSplit | src/viser/infra/_async_message_buffer.py:78-93 | visiting lo..mid then mid..hi sends the same as visiting lo..hi at once |
| BufferCore.DeliverableFrame | src/viser/infra/_async_message_buffer.py:78-93 | what is sent over an id range depends only on the buffered messages in that range |
| Colors.EncodeRgb | viser/_message_api.py:82-90 | a colour packs to an integer exactly when it has three channels |
| Colors.EncodeRgbRecoverable | viser/_message_api.py:85-90 | for byte channels the packed integer is below 2^24 and each channel is recovered from it (red = c div 65536, green = (c div 256) mod 256, blue = c mod 256) |
| Colors.FloatChannelIsByte | viser/_message_api.py:86 | a float channel in [0, 1] becomes an integer in [0, 255] |
| Colors.ColorsToUint8 | viser/_message_api.py:66-74 | the converted array has one byte per input entry |
| Colors.ClipToByte | viser/_message_api.py:72-73 | an integer already in [0, 255] is kept; below 0 gives 0 and above 255 gives 255 |
| Colors.FloatToByte | viser/_message_api.py:70-71 | a float in [0, 1] becomes the whole part of 255 times it; at or below 0 gives 0 and at or above 1 gives 255 |
| Colors.ColorsToUint8KeepsBytes | viser/_message_api.py:69-73 | uint8 input comes back unchanged, and so do integers already in [0, 255] |
| Colors.ColorsToUint8Clips | viser/_message_api.py:72-73 | negative integers become 0 and integers above 255 become 255 |
| Colors.FloatColorIsScaledDown | viser/_message_api.py:70-71 | a float in [0, 1] becomes the whole part of 255 times it |
| FilePlayback.BatchEnd | src/viser/client/src/FilePlayback.tsx:94-97 | the inner loop stops at the first later message whose timestamp is past the batch's time, or at the end; every message before it is due |
| FilePlayback.Step | src/viser/client/src/FilePlayback.tsx:91-114 | a call pushes at least one message, the next ones in recording order, exactly up to the first later timestamp; the next delay is the gap to that timestamp, and at the end of the file playback stops with no loop start or restarts at it after the rest of the duration |
| FilePlayback.StepDelayIsPositive | src/viser/client/src/FilePlayback.tsx:111-114 | inside the recording the next call is scheduled strictly later |
| FilePlayback.StepKeepsIndexInRange | src/viser/client/src/FilePlayback.tsx:96-101 | with a loop start inside the recording, every call that schedules another leaves the message index in range |
| FilePlayback.Pass | src/viser/client/src/FilePlayback.tsx:91-114 | one pass from an index takes at most as many calls as there are messages left, since every call consumes at least one |
| FilePlayback.PassDeliversEveryMessage | src/viser/client/src/FilePlayback.tsx:91-114 | one pass through the file pushes every message from the index on exactly once, in order, in non-empty batches |
| FilePlayback.FirstDelayMs | src/viser/client/src/FilePlayback.tsx:116 | the first call is scheduled at the first message's timestamp; an empty recording fails there |
| FilePlayback.Playback.constructor | src/viser/client/src/FilePlayback.tsx:89 | playback starts at message 0 with the queue untouched |
| FilePlayback.Playback.PushDue | src/viser/client/src/FilePlayback.tsx:94-97 | the loop changes only the queue; it appends the messages from the current index up to the end of the batch, in recording order, and stops exactly at that end |
| FilePlayback.Playback.ContinuePlayback | src/viser/client/src/FilePlayback.tsx:91-115 | `continuePlayback` only appends to the message queue, exactly the batch of one step, and leaves the index and the returned delay that step gives |
| GaussianSplats.NumGaussians | src/viser/client/src/Splatting/GaussianSplats.tsx:178 | a buffer of four floats per splat holds a quarter of its length in splats |
| GaussianSplats.CeilDiv | src/viser/client/src/Splatting/GaussianSplats.tsx:203 | `Math.ceil(a / b)`: the least q with b·q >= a |
| GaussianSplats.Layout | src/viser/client/src/Splatting/GaussianSplats.tsx:202-203 | no layout for zero splats; otherwise the width is min(n, maxTextureSize), at least 1, one row when n fits, and width·height covers n with less than one spare row |
| GaussianSplats.Texel | src/viser/client/src/Splatting/GaussianSplats.tsx:79 | the texel (i mod width, i div width) has its column inside the width and maps back to i |
| GaussianSplats.TexelInsideTexture | src/viser/client/src/Splatting/GaussianSplats.tsx:79-203 | every splat reads a texel inside the texture, and distinct splats read distinct texels |
| GaussianSplats.Padded | src/viser/client/src/Splatting/GaussianSplats.tsx:205-210 | a typed-array `set` into a zeroed array succeeds exactly when the input fits, and then copies it to the front and leaves zeros behind |
| GaussianSplats.BuffersFitTexture | src/viser/client/src/Splatting/GaussianSplats.tsx:202-210 | the float buffer (whole splats) and an int buffer of at most four words per splat fit the padded arrays of width·height·4 entries |
| GaussianSplats.QuadIndexCoversCorners | src/viser/client/src/Splatting/GaussianSplats.tsx:182-191 | the quad index buffer names only the four corners, and each of them |
| GaussianSplats.LoadBuffersAsWritten | src/viser/client/src/Splatting/GaussianSplats.tsx:175-274 | replacing the buffers gives a material with zero splats and textures not yet uploaded, a fresh fade-in, a worker that has received the buffer, the previous camera reset to identity, and the initialized flag left as it was |
| GaussianSplats.LoadBuffers | src/viser/client/src/Splatting/GaussianSplats.tsx:175-274 | the same effect, with the initialized flag cleared for the new buffers |
| GaussianSplats.OnSortResult | src/viser/client/src/Splatting/GaussianSplats.tsx:243-266 | a sort result installs the new indices; only the first one after initialization sets the splat count and flags the textures for upload |
| GaussianSplats.OnFrame | src/viser/client/src/Splatting/GaussianSplats.tsx:291-331 | nothing happens before the mesh and worker exist; otherwise the fade-in steps by 0.01 up to 1, and a camera transform different from the previous one is posted for sorting, becomes the sort-synchronized matrix and is remembered |
| GaussianSplats.TransitionStaysInUnitRange | src/viser/client/src/Splatting/GaussianSplats.tsx:305-308 | the fade-in never decreases and never passes 1 |
| GaussianSplats.Ramp | src/viser/client/src/Splatting/GaussianSplats.tsx:305-308 | one fade-in step never passes 1, never goes down from a value at most 1, and adds exactly 0.01 while that stays within 1 |
| GaussianSplats.TransitionAfterFrames | src/viser/client/src/Splatting/GaussianSplats.tsx:305-308 | after k frames from a fresh load the fade-in stands at min(k/100, 1) |
| GaussianSplats.SameCameraPostsOnce | src/viser/client/src/Splatting/GaussianSplats.tsx:324-331 | a camera transform seen on two frames in a row is posted once, and a frame posts at most one request |
| GaussianSplats.LastPostedIsRemembered | src/viser/client/src/Splatting/GaussianSplats.tsx:324-331 | across frames, the last camera transform posted is the one remembered as previous |
| GaussianSplats.FirstSortAfterLoadUploads | src/viser/client/src/Splatting/GaussianSplats.tsx:261-266 | with the flag cleared on load, the first sort result shows every splat of the new buffers and flags their textures |
| GaussianSplats.ReplacedBuffersStayHidden | src/viser/client/src/Splatting/GaussianSplats.tsx:169-266 | as written, once a sort result has arrived, buffers replaced afterwards leave the splat count at zero and the textures unflagged whatever the worker replies |
| GaussianSplats.Replies | src/viser/client/src/Splatting/GaussianSplats.tsx:243-266 | once set, the initialized flag stays set across sort results |
| GaussianSplats.SplatMesh.constructor | src/viser/client/src/Splatting/GaussianSplats.tsx:164-289 | no textures initialized, nothing posted, identity transforms |
| GaussianSplats.SplatMesh.SetBuffers | src/viser/client/src/Splatting/GaussianSplats.tsx:175-283 | the component state becomes that of the corrected load |
| GaussianSplats.SplatMesh.HandleSortResult | src/viser/client/src/Splatting/GaussianSplats.tsx:243-266 | the component state becomes that of `OnSortResult` |
| GaussianSplats.SplatMesh.Frame | src/viser/client/src/Splatting/GaussianSplats.tsx:291-331 | the component state becomes that of `OnFrame` |
| Gui.GuiRegistry.constructor | viser/_message_api.py:176 | the handle registry starts empty |
| Gui.GuiRegistry.Register | viser/_message_api.py:1034 | registering a handle state maps its id to it and leaves every other entry |
| Gui.GuiRegistry.Pop | viser/_message_api.py:1035-1037 | the cleanup pop succeeds exactly when the id is registered, and removes that id only |
| Gui.GuiHandleState.constructor | viser/_gui.py:39-70 | a new handle state holds its label, value, initial value and type, no callbacks, no sync or cleanup callback, enabled and visible |
| Gui.GuiHandleState.SetValue | viser/_gui.py:100-121 | an array of more than one dimension fails the assertion and changes nothing; otherwise a set-value message is queued unless the input is a button; when converting to the old value's type raises, the queued message stays and nothing else changes; otherwise the converted value is stored, the timestamp is set, every update callback is scheduled in order, and nothing else changes; the setter succeeds exactly when neither step raises |
| Gui.GuiHandleState.SetDisabled | viser/_gui.py:134-140 | setting `disabled` to its current value queues nothing; otherwise exactly one set-disabled message; the field ends equal to the argument and nothing else changes |
| Gui.GuiHandleState.SetVisible | viser/_gui.py:148-154 | setting `visible` to its current value queues nothing; otherwise exactly one set-visible message; the field ends equal to the argument and nothing else changes |
| Gui.GuiHandleState.Remove | viser/_gui.py:156-160 | `remove` queues one remove message first; it succeeds exactly when a cleanup callback is set and the id is registered, and then the id leaves the registry |
| Gui.GuiHandleState.AddCallback | viser/_gui.py:172-205 | registering a callback appends it to the update callbacks and returns it unchanged |
| Gui.GuiHandle.OnUpdate | viser/_gui.py:172-177 | `on_update` appends the function and returns it |
| Gui.GuiButtonGroupHandle.SetDisabled | viser/_gui.py:207-215 | a button group is never disabled: setting `disabled` succeeds exactly when the argument is false |
| Gui.GuiDropdownHandle.SetOptions | viser/_gui.py:237-257 | the options are stored; with no options the indexing fails; otherwise the initial value and the value end in the new options (kept when already there, else the first option), one add-dropdown message is queued with the new initial value, then, only if the value was not an option, the value setter queues one set-value message, starts every update callback and stamps the time; otherwise no callback runs and the timestamp is kept |
| GuiHandles.GuiHandleState.constructor | viser/_gui_handles.py:110-131 | a new handle state holds its label, container, value, initial value and type, no callbacks, no sync or cleanup callback, enabled and visible |
| GuiHandles.GuiHandleState.SetValue | viser/_gui_handles.py:110-131 | an array of more than one dimension fails the assertion and changes nothing; otherwise a set-value message goes to the container's API unless the input is a button; when converting to the old value's type raises, the queued message stays and nothing else changes; otherwise the converted value is stored, the timestamp is set and every update callback is scheduled in order |
| GuiHandles.GuiHandleState.SetDisabled | viser/_gui_handles.py:144-152 | no message when unchanged, otherwise exactly one set-disabled message; the field ends equal to the argument; value, visibility and callbacks are untouched |
| GuiHandles.GuiHandleState.SetVisible | viser/_gui_handles.py:160-168 | no message when unchanged, otherwise exactly one set-visible message; the field ends equal to the argument; value, disability and callbacks are untouched |
| GuiHandles.GuiHandleState.Remove | viser/_gui_handles.py:170-174 | `remove` queues one remove message, then succeeds exactly when a cleanup callback is set, which is then called |
| GuiHandles.GuiHandleState.AddCallback | viser/_gui_handles.py:186-219 | `on_update`/`on_click` append the function to the update callbacks and return it unchanged |
| GuiHandles.GuiButtonGroupHandle.SetDisabled | viser/_gui_handles.py:221-229 | a button group cannot be disabled: setting `disabled` succeeds exactly when the argument is false |
| GuiHandles.GuiDropdownHandle.SetOptions | viser/_gui_handles.py:251-270 | the options are stored; with no options the indexing fails; otherwise initial value and value end in the new options (kept when present, else the first option), one add-dropdown message for the handle's container is queued, then, only if the value was not an option, the value setter queues one set-value message, starts every update callback and stamps the time; otherwise no callback runs and the timestamp is kept |
| GuiHandles.WithTab | viser/_gui_handles.py:288-290 | `add_tab` appends exactly one entry to each of labels, icons and container ids, leaving the earlier entries, so parallel lists stay parallel |
| GuiHandles.IndexOf | viser/_gui_handles.py:366 | `list.index`: the first position holding the id, and none exactly when the id is absent |
| GuiHandles.RemoveAt | viser/_gui_handles.py:374-376 | `pop(i)` shortens the list by one |
| GuiHandles.WithoutTab | viser/_gui_handles.py:362-376 | removing a tab fails exactly when its id is not listed; otherwise the three lists lose one entry each and stay parallel |
| GuiHandles.RemoveAddedTab | viser/_gui_handles.py:282-376 | removing a freshly added tab gives back the tab lists as they were before |
| GuiHandles.RemoveTabKeepsOthers | viser/_gui_handles.py:366-376 | with distinct ids, removal takes out the tab's id and keeps every other id, adding none |
| GuiHandles.GuiTabGroupHandle.constructor | viser/_gui_handles.py:273-280 | a tab group starts with no tabs |
| GuiHandles.GuiTabGroupHandle.AddTab | viser/_gui_handles.py:282-294 | the tab lists become `WithTab` of the old ones, one tab-group message carrying the new lists is queued, and a new tab handle for the new id is returned |
| GuiHandles.GuiTabGroupHandle.Remove | viser/_gui_handles.py:296-298 | removing a tab group queues one remove message for its id |
| GuiHandles.GuiTabHandle.Enter | viser/_gui_handles.py:352-354 | entering a tab saves the current container id and makes the tab's container current |
| GuiHandles.GuiTabHandle.Exit | viser/_gui_handles.py:356-360 | leaving restores the saved container id and clears the saved slot; without a saved id the assertion fails and nothing changes |
| GuiHandles.GuiTabHandle.Remove | viser/_gui_handles.py:362-378 | fails with nothing changed when the tab is not listed; otherwise queues the remove-children message, pops the tab from all three lists and queues the tab-group sync |
| GuiHandles.GuiFolderHandle.Enter | viser/_gui_handles.py:328-330 | entering a folder saves the current container id and makes the folder's container current |
| GuiHandles.GuiFolderHandle.Exit | viser/_gui_handles.py:332-336 | leaving restores the saved container id and clears the slot; without a saved id the assertion fails and nothing changes |
| GuiHandles.GuiFolderHandle.Remove | viser/_gui_handles.py:338-341 | removing a folder queues one remove message for its container |
| GuiHandles.GuiMarkdownHandle.SetVisible | viser/_gui_handles.py:395-401 | no message when the visibility is unchanged, otherwise exactly one; the field ends equal to the argument |
| GuiHandles.GuiMarkdownHandle.Remove | viser/_gui_handles.py:403-405 | removing markdown queues one remove message for its id |
| GuiHandles.NestedContextsRestore | viser/_gui_handles.py:328-360 | a tab entered inside a folder and both left in reverse order leave the container id as it was before the folder was entered |
| GuiStoreCommon.IsGuiConfigExamples | src/viser/client/src/ControlPanel/GuiState.tsx:26-28 | a message type counts as a GUI config exactly when it starts with "GuiAdd": slider and markdown adds do, a modal, a remove message and the bare prefix "Gui" do not |
| GuiStoreCommon.AddGui | src/viser/client/src/ControlPanel/GuiState.tsx:102-108 | adding a config stores it under its id, puts the id in its container's member set (creating that set when missing), and leaves every other config, every other container's set, the values and the attributes as they were |
| GuiStoreCommon.ActionsKeepIndexed | src/viser/client/src/ControlPanel/GuiState.tsx:102-152 | every store action keeps the registry indexed (each stored config is under its own id and is a member of its container's set); removal does so for an id that is present |
| GuiStoreCommon.AddGuiKeepsIndexed | src/viser/client/src/ControlPanel/GuiState.tsx:102-108 | adding a config keeps the registry indexed |
| GuiStoreCommon.RemoveGuiKeepsIndexed | src/viser/client/src/ControlPanel/GuiState.tsx:135-145 | removing a present id keeps the registry indexed |
| GuiStoreCommon.RemoveGuiSpec | src/viser/client/src/ControlPanel/GuiState.tsx:135-145 | removing a present id deletes its config, value and attributes and drops it from its container's member set only, keeps the set of containers, and keeps every other config |
| GuiStoreCommon.RemoveGui | src/viser/client/src/ControlPanel/GuiState.tsx:135-145 | removal needs the id's config and its container's set; it deletes the id from the config, value and attribute maps, drops the config's own id from its container's set only, keeps the set of containers and every other config |
| GuiStoreCommon.ReAddLeavesStaleMembership | src/viser/client/src/ControlPanel/GuiState.tsx:102-108 | re-adding an id under a different container leaves it a member of the old container's set as well as the new one, while the registry stays indexed |
| GuiStoreCommon.SetGuiVisible | src/viser/client/src/ControlPanel/GuiState.tsx:121-127 | setting visibility stores the flag, keeps the disabled flag (absent when there was no entry) and other ids' attributes, and changes nothing else in the registry |
| GuiStoreCommon.SetGuiDisabled | src/viser/client/src/ControlPanel/GuiState.tsx:128-134 | setting disabled stores the flag, keeps the visibility flag (absent when there was no entry) and other ids' attributes, and changes nothing else in the registry |
| GuiStoreCommon.SetGuiValue | src/viser/client/src/ControlPanel/GuiState.tsx:117-120 | setting a value stores it under the id and changes no config, container set or attribute |
| GuiStoreCommon.RemoveModalMembers | src/viser/client/src/ControlPanel/GuiState.tsx:113-116 | after removing modals by id exactly the modals with another id remain, and the list does not grow |
| GuiStoreCommon.RemoveModal | src/viser/client/src/ControlPanel/GuiState.tsx:113-116 | the filtered list is no longer than before and no modal left in it has the removed id |
| GuiStoreCommon.RemoveModalKeepsOrder | src/viser/client/src/ControlPanel/GuiState.tsx:113-116 | removal by id filters each part of a list independently, so the order of the kept modals is preserved |
| GuiStoreCommon.AddThenRemoveModal | src/viser/client/src/ControlPanel/GuiState.tsx:109-116 | adding a modal with a fresh id and then removing that id gives back the original list |
| GuiStoreCommon.RemoveModalUnused | src/viser/client/src/ControlPanel/GuiState.tsx:113-116 | removing an id no modal has leaves the list unchanged |
| GuiState.GuiStore.constructor | src/viser/client/src/ControlPanel/GuiState.tsx:59-97 | a new store has the clean theme, empty label, the given server, both flags false, no modals and an empty registry |
| GuiState.GuiStore.SetTheme | src/viser/client/src/ControlPanel/GuiState.tsx:98-101 | the theme is replaced and nothing else changes |
| GuiState.GuiStore.AddGui | src/viser/client/src/ControlPanel/GuiState.tsx:102-108 | the registry becomes the add of the config, stays indexed, and settings and modals are unchanged |
| GuiState.GuiStore.AddModal | src/viser/client/src/ControlPanel/GuiState.tsx:109-112 | the modal is appended to the list and nothing else changes |
| GuiState.GuiStore.RemoveModal | src/viser/client/src/ControlPanel/GuiState.tsx:113-116 | every modal with the id is filtered out and nothing else changes |
| GuiState.GuiStore.SetGuiValue | src/viser/client/src/ControlPanel/GuiState.tsx:117-120 | the registry becomes the value update, stays indexed, and nothing else changes |
| GuiState.GuiStore.SetGuiVisible | src/viser/client/src/ControlPanel/GuiState.tsx:121-127 | the registry becomes the visibility update, stays indexed, and nothing else changes |
| GuiState.GuiStore.SetGuiDisabled | src/viser/client/src/ControlPanel/GuiState.tsx:128-134 | the registry becomes the disabled update, stays indexed, and nothing else changes |
| GuiState.GuiStore.RemoveGui | src/viser/client/src/ControlPanel/GuiState.tsx:135-145 | succeeds exactly when the id has a config, and then the registry becomes the removal and stays indexed; a missing id (where the action throws and the update is discarded) leaves the store unchanged |
| GuiState.GuiStore.ResetGui | src/viser/client/src/ControlPanel/GuiState.tsx:146-152 | the registry is emptied while theme, label, server, flags and modals are kept |
| GuiStateLegacy.GuiStore.constructor | viser/client/src/ControlPanel/GuiState.tsx:55-79 | a new store has the clean theme, empty label, the given server, both flags false, no modals and an empty registry |
| GuiStateLegacy.GuiStore.SetTheme | viser/client/src/ControlPanel/GuiState.tsx:80-83 | the theme is replaced and nothing else changes |
| GuiStateLegacy.GuiStore.AddGui | viser/client/src/ControlPanel/GuiState.tsx:84-90 | the registry becomes the add of the config, stays indexed, and settings and modals are unchanged |
| GuiStateLegacy.GuiStore.AddModal | viser/client/src/ControlPanel/GuiState.tsx:91-94 | the modal is appended to the list and nothing else changes |
| GuiStateLegacy.GuiStore.RemoveModal | viser/client/src/ControlPanel/GuiState.tsx:95-98 | every modal with the id is filtered out and nothing else changes |
| GuiStateLegacy.GuiStore.SetGuiValue | viser/client/src/ControlPanel/GuiState.tsx:99-102 | the registry becomes the value update, stays indexed, and nothing else changes |
| GuiStateLegacy.GuiStore.SetGuiVisible | viser/client/src/ControlPanel/GuiState.tsx:103-109 | the registry becomes the visibility update, stays indexed, and nothing else changes |
| GuiStateLegacy.GuiStore.SetGuiDisabled | viser/client/src/ControlPanel/GuiState.tsx:110-116 | the registry becomes the disabled update, stays indexed, and nothing else changes |
| GuiStateLegacy.GuiStore.RemoveGui | viser/client/src/ControlPanel/GuiState.tsx:117-127 | succeeds exactly when the id has a config, and then the registry becomes the removal and stays indexed; a missing id (where reading the container of an undefined config throws) leaves the store unchanged |
| GuiStateLegacy.GuiStore.ResetGui | viser/client/src/ControlPanel/GuiState.tsx:128-134 | the registry is emptied while theme, label, server, flags and modals are kept |
| HandleRules.TruncToInt | viser/_gui_handles.py:124 | Python's int() of a float truncates toward zero: the result is the whole number next to the input on the side of zero, less than one away |
| HandleRules.Compatible | viser/_gui_handles.py:124 | the conversions that keep a value within its own type or turn a number into int or float: every value is compatible with its own type, and with another type only when it is a number converted to int or float |
| HandleRules.PyEq | viser/_message_api.py:959 | Python equality of values is reflexive, and booleans and strings are equal only to themselves |
| HandleRules.Cast | viser/_gui_handles.py:124 | on compatible values, converting to the type of the current value gives a value of that type, and a value already of that type is kept as is |
| HandleRules.CastIdempotent | viser/_gui_handles.py:124 | converting twice to the same type is the same as converting once |
| HandleRules.Convert | viser/_gui_handles.py:124 | Python's `type(current)(value)` on any value: it agrees with Cast on compatible values and always gives a value of the target type; it raises exactly for int or float of a tuple or of a string that is no number literal, and for tuple of a bool or a number (a string is also refused, see Left out); bool gives the truth value, str gives the text Python writes, int and float of a bool give 0 or 1, and of a string give the number it spells |
| HandleRules.ConvertIdempotent | viser/_gui_handles.py:124 | converting a converted value again to the same type gives the same result |
| HandleRules.DigitChar | viser/_gui_handles.py:124 | the character of a decimal digit is a digit whose code is the digit's offset from "0" |
| HandleRules.DecimalText | viser/_gui_handles.py:124 | `str` of a natural number is a non-empty string of decimal digits |
| HandleRules.DecimalRoundTrip | viser/_gui_handles.py:124 | reading back the decimal digits of a natural number gives the number |
| HandleRules.ParseIntText | viser/_gui_handles.py:124 | `int()` of the text `str()` writes for an int is that int, negative ones included |
| HandleRules.IntTextRoundTrip | viser/_gui_handles.py:124 | converting an int to str gives its decimal text, and converting that text back to int gives the int: `int(str(i)) == i` |
| HandleRules.CastKeepsNumber | viser/_gui_handles.py:124 | converting a number to float keeps it equal in Python's sense; converting to int keeps it equal exactly when it is a whole number |
| HandleRules.FromArray | viser/_gui_handles.py:112-114 | a one-dimensional array becomes a float tuple of the same length with each element converted; a higher-dimensional array fails the assertion and a zero-dimensional one fails the iteration |
| HandleRules.Reconciled | viser/_gui_handles.py:251-270 | after new options are set the value is kept exactly when it is still an option, otherwise it becomes the first option; an empty option list with a stale value is the IndexError |
| Icons.Upper | src/viser/_icons_generate_enum.py:12 | an ASCII lower-case letter becomes its upper-case letter; every other character is kept |
| Icons.Lower | src/viser/_icons_generate_enum.py:69 | an ASCII upper-case letter becomes its lower-case letter; every other character is kept |
| Icons.EnumChars | src/viser/_icons_generate_enum.py:12-13 | the enum spelling has the name's length, no hyphen, and each character upper-cased or, for a hyphen, an underscore |
| Icons.EnumNameFromIcon | src/viser/_icons_generate_enum.py:10-16 | an empty name is the IndexError; otherwise the enum name has no hyphen and is the upper-cased spelling, prefixed by "ICON_" exactly when the name starts with a digit |
| Icons.IconChars | src/viser/_icons_generate_enum.py:69 | the icon spelling has the attribute's length, no underscore, and each character lower-cased or, for an underscore, a hyphen |
| Icons.IconFromAttribute | src/viser/_icons_generate_enum.py:66-71 | an attribute starting with an underscore raises AttributeError; any other gives an icon name of the same length without underscores |
| Icons.EnumNameRoundTrip | src/viser/_icons_generate_enum.py:10-71 | a lower-case icon name starting with a letter comes back unchanged from its enum name; one starting with a digit comes back with an "icon-" prefix |
| Icons.DigitIconMissesItsName | src/viser/_icons_generate_enum.py:14-85 | the documented attribute ICON_2FA of the icon "2fa" resolves to "icon-2fa" and not to "2fa" |
| Icons.IconFromAttributeCorrected | src/viser/_icons_generate_enum.py:66-85 | a converter that drops the "ICON_" prefix in front of a digit: private names still raise, and otherwise the result is the lower-cased spelling of the name without that prefix |
| Icons.CorrectedRoundTrip | src/viser/_icons_generate_enum.py:10-85 | with the corrected converter every lower-case icon name not starting with a hyphen (and not itself "icon-" followed by a digit) comes back unchanged from its enum name |
| Icons.LeadingHyphenIsRefused | src/viser/_icons_generate_enum.py:10-71 | an icon name starting with a hyphen gets an enum name starting with an underscore, which the converter refuses |
| Infra.RegisterThenDispatch | viser/infra/_infra.py:61-75 | a registered callback is dispatched after the earlier ones for its class, and the dispatch of every other class is unchanged |
| Infra.RegistrationOrder | viser/infra/_infra.py:61-75 | callbacks registered one after another for a class are dispatched exactly in registration order after those registered before |
| Infra.MessageHandler.constructor | viser/infra/_infra.py:56-59 | a new handler mix-in has no registered callbacks |
| Infra.MessageHandler.RegisterHandler | viser/infra/_infra.py:61-69 | the handler map becomes the registration of the callback for its class |
| Infra.MessageHandler.HandleIncomingMessage | viser/infra/_infra.py:71-75 | the callbacks called, in order, are those registered for the message's class (none when the class has none) |
| Infra.ConnectionCounter.constructor | viser/infra/_infra.py:185-186 | both counters start at zero and no id has been issued |
| Infra.ConnectionCounter.Open | viser/infra/_infra.py:191-197 | a new connection takes the current count as its id, which differs from every id issued before, and both counters go up by one |
| Infra.ConnectionCounter.Close | viser/infra/_infra.py:243-252 | a closed connection lowers the open-connection count by one and never reuses or changes ids |
| Infra.GetNextWrapped | viser/infra/_infra.py:335-339 | the message returned is the first one from the current position on that is not excluded for this client; when none is left, none is returned (the source keeps waiting) |
| Infra.Kept | viser/infra/_infra.py:270-271 | the path segments kept are non-empty, not "." and taken from the path |
| Infra.RelativeToRoot | viser/infra/_infra.py:269-270 | the relative path exists exactly when the request path starts with "/" and does not start with exactly two slashes, which `pathlib` keeps as a root of its own |
| Infra.HttpRouteOf | viser/infra/_infra.py:260-289 | a request is passed on to the websocket exactly when its upgrade header is "websocket"; the path mapping itself never gives the 404 reply, which only a missing file does |
| Infra.HttpRouteRules | viser/infra/_infra.py:260-273 | a websocket upgrade is passed on; the query string never changes the route; "/" with or without a query serves index.html |
| Infra.ServedPathIsRelative | viser/infra/_infra.py:269-275 | a served file's path is non-empty and does not start with "/" |
| Infra.DoubleSlashRules | viser/infra/_infra.py:269-270 | a request path starting with exactly "//" makes `relative_to("/")` raise; three or more leading slashes route like one |
| Infra.DoubleSlashExample | viser/infra/_infra.py:269-270 | the request "//foo" makes `relative_to("/")` raise |
| Infra.DotDotLeavesRoot | viser/infra/_infra.py:269-275 | as written, the request "/../name" serves "../name", a file beside the server root |
| Infra.ServedPathStaysUnderRoot | viser/infra/_infra.py:269-275 | with ".." refused, a served path is index.html or has only proper segments (not empty, not ".", not ".."), so it lies under the server root; a path without ".." is routed as before |
| Infra.DotDotIsRefused | viser/infra/_infra.py:269-275 | with ".." refused, the request "/../name" gets the 404 reply |
| Infra.BindPort | viser/infra/_infra.py:291-307 | binding succeeds exactly when one of the 500 ports from the start is free, and then takes the lowest free one; otherwise the port ends 500 past the start |
| Infra.WindowLength | viser/infra/_infra.py:384-411 | a window holds at least one element and never more than max_length when that is at least one |
| Infra.Window | viser/infra/_infra.py:384-413 | with the pending element replaced after every element taken, a window is between one and max_length consecutive elements from the pending one, and the next pending element follows the window |
| Infra.WindowAsWritten | viser/infra/_infra.py:384-413 | as written, the window is the same, but after a full window the pending element is the window's last element again |
| Infra.FullWindowRepeatsLastElement | viser/infra/_infra.py:379-411 | with max_length 2 and quickly arriving elements the first window is [0, 1] and the next one starts again with element 1 |
| Infra.WindowsPartitionTheStream | viser/infra/_infra.py:384-413 | with the pending element replaced after every element taken, two consecutive windows continue the stream: together they are the next consecutive elements, none repeated or skipped |
| Infra.AsyncWindowCollector.constructor | viser/infra/_infra.py:370-379 | a new collector keeps its max_length and its pending element is the first one |
| Infra.AsyncWindowCollector.AnextAsWritten | viser/infra/_infra.py:384-413 | the window returned and the new pending element are those of the collector as written |
| Infra.AsyncWindowCollector.Anext | viser/infra/_infra.py:384-413 | the window returned and the new pending element are those of the corrected collector; the window holds between one and max_length elements |
| InfraMessageBuffer.AsyncMessageBuffer.constructor | viser/infra/_async_message_buffer.py:19-21 | a new buffer has counter zero, no messages and no keys |
| InfraMessageBuffer.AsyncMessageBuffer.Push | viser/infra/_async_message_buffer.py:23-36 | the buffer becomes the shared push of the message (new id is the old counter, counter up by one, an older message with the same non-None key dropped, the key mapped to the new id) and stays complete |
| InfraMessageBuffer.ReadyWindowIsNonEmpty | viser/infra/_async_message_buffer.py:105-115 | with a positive max length a window is only sent when it holds a message, and a window of max length is always sent |
| InfraMessageBuffer.MessageWindow.constructor | viser/infra/_async_message_buffer.py:79-83 | a new window has its duration and max length, start time -1 and no messages |
| InfraMessageBuffer.MessageWindow.AppendToWindow | viser/infra/_async_message_buffer.py:85-89 | the message is appended, and the start time is set to now exactly when the window was empty |
| InfraMessageBuffer.MessageWindow.GetWindowToSend | viser/infra/_async_message_buffer.py:105-123 | when the window is ready (non-empty and old enough, or at max length) it is returned and cleared; otherwise nothing is returned and the window is kept; the start time is untouched |
| InfraMessageBuffer.WindowGenerator.constructor | viser/infra/_async_message_buffer.py:50-51 | a generator starts with cursor -1 and a fresh empty window with the given duration and max length |
| InfraMessageBuffer.WindowGenerator.Step | viser/infra/_async_message_buffer.py:52-72 | with nothing new the step waits and changes nothing; otherwise the cursor advances by exactly one, the message at that id is appended when it exists and is not excluded for this client, the window's start time becomes the current time exactly when a message enters an empty window, and the window is sent and cleared exactly when it is ready |
| MessageBuffer.AsyncMessageBuffer.constructor | src/viser/infra/_async_message_buffer.py:17-28 | a new buffer has the given persistence and window cap, no messages, no keys and is not done |
| MessageBuffer.AsyncMessageBuffer.Push | src/viser/infra/_async_message_buffer.py:30-55 | the buffer becomes the shared push of the message, stays indexed, and the done flag is kept |
| MessageBuffer.AsyncMessageBuffer.SetDone | src/viser/infra/_async_message_buffer.py:62-65 | the done flag is set and the buffer's contents are unchanged |
| MessageBuffer.WindowGenerator.constructor | src/viser/infra/_async_message_buffer.py:73 | a generator starts with cursor -1 |
| MessageBuffer.WindowGenerator.FillWindow | src/viser/infra/_async_message_buffer.py:76-93 | the cursor never moves back nor past the last id; the loop stops at the last id or at the window cap; the window is exactly the deliverable messages between the old and new cursor; a non-persistent buffer drops the visited messages, a persistent one keeps them; counter, keys and done flag unchanged |
| MessageBuffer.WindowGenerator.Next | src/viser/infra/_async_message_buffer.py:73-100 | a pass finishes exactly when the buffer is done, and then changes nothing; otherwise the visited ids are popped unless the buffer is persistent, a yielded window holds between one and max-window-size messages, all deliverable between the old and new cursor, a wait means none was, and the counter and the key map are unchanged |
| MessageBuffer.ExcludedNeverSent | src/viser/infra/_async_message_buffer.py:92-93 | no message excluded for a client is ever put in that client's window |
| LegacyMessageBuffer.PushStoresAndCounts | viser/_async_message_buffer.py:35-68 | a push stores the message under the old counter, raises the counter by one, and maps the message's class-qualified name to the new id |
| LegacyMessageBuffer.Pushed | viser/_async_message_buffer.py:26-68 | push raises the counter by one and, for a message with a key, leaves the key mapped to the new id |
| LegacyMessageBuffer.Cull | viser/_async_message_buffer.py:52-54 | the key is no longer indexed, every other indexed key keeps its id, nothing is added and the counter is kept |
| LegacyMessageBuffer.Cascade | viser/_async_message_buffer.py:60-67 | every indexed key that does not start with the removal's key keeps its id, nothing is added and the counter is kept |
| LegacyMessageBuffer.ResetLeavesOnlyItself | viser/_async_message_buffer.py:29-37 | pushing a reset leaves the reset message as the only buffered message and no names indexed |
| LegacyMessageBuffer.KeylessMessagesSurvive | viser/_async_message_buffer.py:40-45 | a buffered message without a name is kept unchanged by any push other than a reset |
| LegacyMessageBuffer.KeyedMessagesSurvive | viser/_async_message_buffer.py:40-68 | a buffered message with a key is kept unchanged by a push that is not a reset, does not carry the same key, and is not a scene-node removal whose key is a prefix of its key |
| LegacyMessageBuffer.AtMostOnePerKey | viser/_async_message_buffer.py:48-68 | in a valid buffer no two buffered messages share a class-qualified name |
| LegacyMessageBuffer.AtMostOneBackgroundImage | viser/_async_message_buffer.py:42-54 | in a valid buffer at most one background image is buffered |
| LegacyMessageBuffer.CullKeepsValidBut | viser/_async_message_buffer.py:52-54 | dropping the entry of a name keeps the buffer valid apart from the new id and leaves that name unindexed |
| LegacyMessageBuffer.CascadeKeepsValidBut | viser/_async_message_buffer.py:60-67 | the removal cascade keeps the buffer valid apart from the new id and only removes indexed names |
| LegacyMessageBuffer.IndexNewKeepsValid | viser/_async_message_buffer.py:68 | indexing the new message under its unused name makes the buffer valid again |
| LegacyMessageBuffer.PushKeepsValid | viser/_async_message_buffer.py:26-68 | every push keeps the buffer valid: each indexed name points at a buffered message carrying that name, and every named buffered message is indexed |
| LegacyMessageBuffer.RemovalCascades | viser/_async_message_buffer.py:56-68 | after a node removal is pushed no other indexed name starts with the removal's class-qualified name |
| LegacyMessageBuffer.ExampleKeys | viser/_async_message_buffer.py:48-62 | the class-qualified key of a removal of "/a" is a string prefix of the key of a removal of "/ab" but not of the key of a frame "/a/b" |
| LegacyMessageBuffer.CascadeExampleSetup | viser/_async_message_buffer.py:43-67 | after pushing a frame "/a/b" and then a removal of "/ab" into an empty buffer, both are buffered under ids 0 and 1 and indexed by their keys |
| LegacyMessageBuffer.CascadeIsPerClassStringPrefix | viser/_async_message_buffer.py:48-67 | the cascade matches by string prefix of the removal's own class-qualified name: removing "/a" drops an earlier removal of "/ab" but not a frame named "/a/b" |
| LegacyMessageBuffer.AsyncMessageBuffer.constructor | viser/_async_message_buffer.py:20-23 | a new buffer is empty with counter zero, and valid |
| LegacyMessageBuffer.AsyncMessageBuffer.Push | viser/_async_message_buffer.py:26-68 | the buffer becomes the pushed state and stays valid |
| LegacyMessageBuffer.AsyncMessageBuffer.RemovePrefixed | viser/_async_message_buffer.py:60-67 | every indexed name starting with the key is removed together with its message; the counter and everything else stays |
| MessageApi.Hex2 | src/viser/_message_api.py:55 | one byte is written as exactly two hex digits |
| MessageApi.HexDigitValue | src/viser/_message_api.py:55 | each of the sixteen hex digits reads back as its own value |
| MessageApi.ParseHex2 | src/viser/_message_api.py:55 | two characters read as a byte exactly when both are hex digits; the byte is below 256 and its low digit is the second character |
| MessageApi.Hex2RoundTrip | src/viser/_message_api.py:55 | the two hex digits of a byte read back as that byte |
| MessageApi.ByteFromUnit | src/viser/_message_api.py:55 | a channel in [0, 1] becomes the byte nearest to it scaled by 255 (within one half) |
| MessageApi.HexFromHls | src/viser/_message_api.py:51-58 | a colour is written as "#" followed by six hex digits |
| MessageApi.HexFromHlsRoundTrip | src/viser/_message_api.py:51-58 | the three digit pairs of the colour read back as the red, green and blue bytes of the input |
| MessageApi.ThemeColorsAsWritten | src/viser/_message_api.py:169-200 | the theme call succeeds exactly when there is no brand colour, or it has ten entries, or it has three integer channels; a palette is produced only for a three-channel brand colour |
| MessageApi.ThemeColors | src/viser/_message_api.py:169-200 | with the corrected rule every palette sent has ten colours each starting with "#"; a ten-entry brand colour succeeds exactly when all ten are hex strings; every other input behaves as written |
| MessageApi.TenColorBrandIsDropped | src/viser/_message_api.py:170-196 | a ten-entry brand colour of "#ffffff" is accepted but produces no palette as written, while the corrected rule passes the ten colours on |
| MessageApi.CatmullRomPositions | src/viser/_message_api.py:238-242 | the positions are accepted exactly when an array has shape (N, 3) and the first position has three coordinates, and are then passed on as tuples |
| MessageApi.CubicBezierPoints | src/viser/_message_api.py:265-274 | positions and control points are accepted exactly when every array has shape (N, 3) and there are 2N - 2 control points; then at least one position exists and both are passed on as tuples |
| MessageApi.FixedDepth | src/viser/_message_api.py:456-462 | a depth becomes a fixed-point value clipped to 0 .. 2^24 - 1, the floor of depth times 100000 when that is in range |
| MessageApi.DepthBytes | src/viser/_message_api.py:462-464 | a fixed-point depth is three bytes |
| MessageApi.DepthBytesRoundTrip | src/viser/_message_api.py:456-465 | the three bytes of a depth read back little-endian as its fixed-point value |
| MessageApi.MessageApi.constructor | src/viser/_message_api.py:132-140 | a new API keeps its outbox and has no scene node handles |
| MessageApi.MessageApi.ConfigureTheme | src/viser/_message_api.py:155-209 | the theme message is queued exactly when the corrected colour rules accept the brand colour, with the resulting palette; otherwise nothing is queued |
| MessageApi.MessageApi.AddSplineCatmullRom | src/viser/_message_api.py:227-253 | the spline message is queued exactly when the positions and the colour are accepted, with the positions as tuples and the packed colour; otherwise nothing is queued |
| MessageApi.MessageApi.AddSplineCubicBezier | src/viser/_message_api.py:255-283 | the spline message is queued exactly when positions, control points and colour are accepted, carrying them as tuples and the packed colour; otherwise nothing is queued |
| MessageApi.MessageApi.Add3dGuiContainer | src/viser/_message_api.py:631-661 | an existing handle of that name is removed first, then the container message with the current time as order, the name and a fresh container id is queued |
| MessageApiLegacy.Pow10 | viser/_message_api.py:135 | a power of ten is at least one |
| MessageApiLegacy.NearestInt | viser/_message_api.py:149 | rounding to an integer lands within one half of the input |
| MessageApiLegacy.RoundToFixes | viser/_message_api.py:149 | rounding to d decimals leaves a number unchanged exactly when it has no more than d decimals |
| MessageApiLegacy.RoundTo | viser/_message_api.py:149 | rounding to d decimals moves a number by at most half a unit in the d-th decimal |
| MessageApiLegacy.NearestIntFixes | viser/_message_api.py:149 | rounding to an integer leaves a number unchanged exactly when it is whole |
| MessageApiLegacy.PrecisionFrom | viser/_message_api.py:148-151 | the count found from d on is between d and 7, is the first count at which rounding leaves the number unchanged (unless the cap 7 is reached), and no smaller count from d on does |
| MessageApiLegacy.PrecisionDigits | viser/_message_api.py:138-151 | the number of precision digits is at most 7 |
| MessageApiLegacy.ComputePrecisionDigits | viser/_message_api.py:138-151 | the counting loop returns the precision digits of the number |
| MessageApiLegacy.PrecisionIsLeastDecimals | viser/_message_api.py:138-151 | the precision is the least number of decimals (below 7) that write the number exactly |
| MessageApiLegacy.PrecisionOfWholeNumber | viser/_message_api.py:142 | 100 has precision 0 |
| MessageApiLegacy.PrecisionOfOneDecimal | viser/_message_api.py:144 | 12.1 has precision 1 |
| MessageApiLegacy.PrecisionOfThreeDecimals | viser/_message_api.py:146 | 0.007 has precision 3 |
| MessageApiLegacy.ComputeStep | viser/_message_api.py:125-135 | the step is 1 without a number, and otherwise ten to the minus the number's precision |
| MessageApiLegacy.Sub | viser/_message_api.py:559 | subtracting two numbers gives their numeric difference |
| MessageApiLegacy.SliderArgs | viser/_message_api.py:558-568 | the arguments are accepted exactly when min <= max and the initial value lies between them; the step is capped at max - min; the initial value keeps its numeric value and stays an integer only when min, max and step are integers too |
| MessageApiLegacy.DropdownInitial | viser/_message_api.py:515-526 | a given initial value is used as is; without one the first option is used, and an empty option list is the IndexError |
| MessageApiLegacy.ButtonGroupInitial | viser/_message_api.py:275-284 | the initial value is the first option, and an empty option list is the IndexError |
| MessageApiLegacy.MessageApi.constructor | viser/_message_api.py:175-192 | a new API keeps its registry and outbox and has no open folders |
| MessageApiLegacy.MessageApi.EnterFolder | viser/_message_api.py:212-215 | entering a folder pushes its label |
| MessageApiLegacy.MessageApi.ExitFolder | viser/_message_api.py:216-217 | leaving pops the last label, and the assertion holds exactly when it is the label being left; with no folder open the pop fails |
| MessageApiLegacy.MessageApi.CreateGuiInput | viser/_message_api.py:1002-1058 | the add message is queued, a fresh handle state with the message's id, label, folders, order and hint, the initial value and its type, no callbacks, a cleanup callback and a sync callback unless it is a button is registered under the id, and disabling or hiding queues the matching message |
| MessageApiLegacy.MessageApi.ConfigureNewInput | viser/_message_api.py:1035-1058 | a new input gets its cleanup callback, a sync callback unless it is a button, and ends with the requested disabled and visible flags; a message is queued only for each flag that differs from the default, disabled first; the value, callbacks and timestamp are untouched |
| MessageApiLegacy.MessageApi.AddGuiSlider | viser/_message_api.py:546-594 | a slider is created exactly when the arguments are accepted, with the converted initial value and a sync callback; its add message carries the step capped to the range and the precision computed from that step, followed by the disabled and hidden messages the flags call for; rejected arguments queue and register nothing |
| MessageApiLegacy.MessageApi.AddGuiDropdown | viser/_message_api.py:515-545 | a dropdown is created exactly when it has an initial value, given or first option, and keeps its options; the add message carries that initial value and the options, followed by the disabled and hidden messages the flags call for; otherwise nothing is queued or registered |
| MessageApiLegacy.MessageApi.AddGuiButtonGroup | viser/_message_api.py:275-302 | a button group is created exactly when there is an option, with the first option as value; the add message carries the first option and the options, followed by the disabled and hidden messages the flags call for; otherwise nothing is queued or registered |
| MessageApiLegacy.MessageApi.HandleGuiUpdates | viser/_message_api.py:948-971 | an update for an unknown id does nothing; otherwise the value is converted to the input's type, and a conversion that raises or an unchanged value of a non-button changes nothing, while anything else is stored with the current time, calls every update callback in order and is synced to the other clients when the input has a sync callback |
| MessageApiLegacy.MessageApi.RepeatedUpdateIsIgnored | viser/_message_api.py:948-961 | sending the same value twice to a non-button input runs the callbacks and the sync at most once: the second update queues and calls nothing, and when the value converts the input holds a value equal to the converted one |
| NotificationHandle.Assign | src/viser/_notification_handle.py:38-97 | assigning a property value already stored (equal in Python's sense) changes nothing and sends nothing; any other assignment sends exactly one update carrying the new notification; the id never changes |
| NotificationHandle.AssignIsIdempotent | src/viser/_notification_handle.py:38-97 | after an assignment the value is stored, and repeating the same assignment sends nothing |
| NotificationHandle.ZeroAutoCloseEqualsNever | src/viser/_notification_handle.py:20-94 | setting auto-close to 0 when it is False sends nothing, because 0 == False in Python |
| NotificationHandle.AssignAll | src/viser/_notification_handle.py:38-97 | a run of assignments sends at most one message per assignment, each an update of this notification |
| NotificationHandle.LastMessageIsCurrent | src/viser/_notification_handle.py:22-97 | after any series of assignments the id is unchanged, the last update sent carries the final notification, and when nothing was sent the notification is unchanged |
| NotificationHandle.NotificationHandle.constructor | src/viser/_notification_handle.py:14-20 | a new handle has its id, title and body, not loading, a close button and no auto-close |
| NotificationHandle.NotificationHandle.QueueUpdate | src/viser/_notification_handle.py:22-31 | one update message carrying the whole current notification is queued |
| NotificationHandle.NotificationHandle.SetTitle | src/viser/_notification_handle.py:38-44 | the title assignment's new state and messages |
| NotificationHandle.NotificationHandle.SetBody | src/viser/_notification_handle.py:51-57 | the body assignment's new state and messages |
| NotificationHandle.NotificationHandle.SetLoading | src/viser/_notification_handle.py:64-70 | the loading assignment's new state and messages |
| NotificationHandle.NotificationHandle.SetWithCloseButton | src/viser/_notification_handle.py:77-83 | the close-button assignment's new state and messages |
| NotificationHandle.NotificationHandle.SetAutoClose | src/viser/_notification_handle.py:91-97 | the auto-close assignment's new state and messages |
| NotificationHandle.NotificationHandle.Remove | src/viser/_notification_handle.py:99-100 | one removal message for the id is queued |
| SceneHandle.CastVector | viser/_scene_handle.py:16-22 | a tuple is accepted exactly when it has the required length and is returned as is; an array is accepted exactly when its shape is (length,) and is returned element by element as floats |
| SceneHandle.CastArrayHasLength | viser/_scene_handle.py:16-22 | an array of shape (length,) is accepted and gives a tuple of that length |
| SceneHandle.TransformControlsHandle.constructor | viser/_scene_handle.py:41-66 | a new handle has its name, API, no callbacks and the snapshot of its initial pose and time |
| SceneHandle.TransformControlsHandle.OnUpdate | viser/_scene_handle.py:68-72 | the callback is appended and returned, and the pose snapshot is unchanged |
| SceneHandle.TransformControlsHandle.SetState | viser/_scene_handle.py:74-83 | the set message is queued exactly when both vectors pass their checks, carrying the cast vectors; the handle's own pose is not changed |
| SceneTreeTable.SubRows | src/viser/client/src/ControlPanel/SceneTreeTable.tsx:51-92 | a missing node has no rows; otherwise there is one row per child, in order, showing the child's displayed visibility (override, else server visibility, else visible), full opacity exactly when it and its parent are visible, and the child's own rows beneath |
| SceneTreeTable.HiddenParentFadesSubtree | src/viser/client/src/ControlPanel/SceneTreeTable.tsx:65-89 | under a hidden parent every row of the whole subtree is drawn faded |
| SceneTreeTable.EffectiveRowsAreVisible | src/viser/client/src/ControlPanel/SceneTreeTable.tsx:60-80 | a row shows full opacity only when its own eye is open, at every depth |
| SceneTreeTable.DisplayedVisibility | src/viser/client/src/ControlPanel/SceneTreeTable.tsx:60-64 | a local override wins over the server's visibility; a node with neither set is shown |
| SceneTreeTable.WithOverride | src/viser/client/src/ControlPanel/SceneTreeTable.tsx:30-35 | setting an override creates the node's record when missing, sets only its override, leaves every other node's record, and the node then displays the given visibility |
| SceneTreeTable.EyeToggleFlips | src/viser/client/src/ControlPanel/SceneTreeTable.tsx:76-78 | clicking a row's eye flips the visibility that row displays |
| SceneTreeTable.WithoutOverrides | src/viser/client/src/ControlPanel/SceneTreeTable.tsx:276-281 | clearing overrides keeps every node's record and removes only its override |
| SceneTreeTable.ClearedOverridesShowServerVisibility | src/viser/client/src/ControlPanel/SceneTreeTable.tsx:60-281 | after clearing the overrides every node displays the server's visibility, or visible when the server sent none |
| SceneTreeTable.NodeAttributeStore.constructor | src/viser/client/src/ControlPanel/SceneTreeTable.tsx:30-33 | the attribute store starts with the given records |
| SceneTreeTable.NodeAttributeStore.SetOverrideVisibility | src/viser/client/src/ControlPanel/SceneTreeTable.tsx:30-35 | the records become those with the override set for the node |
| SceneTreeTable.NodeAttributeStore.ClearOverrides | src/viser/client/src/ControlPanel/SceneTreeTable.tsx:276-281 | the records become those with every override removed |
| SceneTreeTable.NonEmpty | src/viser/client/src/ControlPanel/SceneTreeTable.tsx:121-122 | the name segments kept are all non-empty |
| SceneTreeTable.NameSpans | src/viser/client/src/ControlPanel/SceneTreeTable.tsx:119-132 | the name cell has one span per non-empty segment and only the last segment is emphasised |
| SceneTreeTable.SlashedIsJoin | src/viser/client/src/ControlPanel/SceneTreeTable.tsx:120-131 | writing each segment after a slash is the slash-joined path with a leading slash |
| SceneTreeTable.SpansTextIsSlashed | src/viser/client/src/ControlPanel/SceneTreeTable.tsx:123-131 | the rendered spans ("/part" for each but the last, then "/" and the last part) read as the slash-prefixed path |
| SceneTreeTable.NameCellText | src/viser/client/src/ControlPanel/SceneTreeTable.tsx:119-132 | the name cell reads as the node name with empty segments removed: "/" followed by the segments joined by "/", or nothing for a name without segments |
| ServerMessages.Outbox.Queue | viser/_message_api.py:944-946 | the message is appended to the queue, and no callback is recorded |
| ServerMessages.Outbox.RunCallbacks | viser/_message_api.py:967-968 | each update callback is called once, in registration order, with the handle, and nothing is queued |
| ServerMessages.UpdateCalls | viser/_message_api.py:967-968 | the calls are one per callback, in order, each with that callback and the handle |
| ServerMessages.UpdateCallsAppend | viser/_message_api.py:967-968 | a callback registered last is called last |
| WasmSorter.CountLessStep | src/viser/client/src/Splatting/WasmSorter/sorter.cpp:61-62 | the number of bins below b + 1 is the number below b plus the count of b, the recurrence of the bucket starts |
| WasmSorter.CountLessMonotone | src/viser/client/src/Splatting/WasmSorter/sorter.cpp:61-62 | bucket starts never decrease |
| WasmSorter.CountLessBounds | src/viser/client/src/Splatting/WasmSorter/sorter.cpp:61-63 | the first bucket starts at 0 and all buckets together hold every element |
| WasmSorter.CountPrefixGrows | src/viser/client/src/Splatting/WasmSorter/sorter.cpp:67-68 | a later element of the same bin is placed after an earlier one, because more of that bin precede it |
| WasmSorter.PosInRange | src/viser/client/src/Splatting/WasmSorter/sorter.cpp:66-68 | every element's slot (bucket start plus same-bin elements before it) lies inside the output |
| WasmSorter.PosOrder | src/viser/client/src/Splatting/WasmSorter/sorter.cpp:66-68 | an element of a lower bin, or of the same bin and earlier, gets a lower slot |
| WasmSorter.PosDistinct | src/viser/client/src/Splatting/WasmSorter/sorter.cpp:66-68 | the slot of each element differs from the slots of all earlier elements, so no write overwrites another |
| WasmSorter.InRange | src/viser/client/src/Splatting/WasmSorter/sorter.cpp:66 | the slot set of size n is exactly 0 .. n - 1 |
| WasmSorter.ImageSize | src/viser/client/src/Splatting/WasmSorter/sorter.cpp:66-68 | the first m elements occupy m distinct slots |
| WasmSorter.RangeSize | src/viser/client/src/Splatting/WasmSorter/sorter.cpp:66 | the slot set of size n has n members |
| WasmSorter.PositionsFillRange | src/viser/client/src/Splatting/WasmSorter/sorter.cpp:66-68 | every output slot is written by some element, so no slot keeps a stale value |
| WasmSorter.DepthBin | src/viser/client/src/Splatting/WasmSorter/sorter.cpp:54-58 | a depth between the minimum and the maximum falls in one of the 65536 bins |
| WasmSorter.BinBelowMax | src/viser/client/src/Splatting/WasmSorter/sorter.cpp:54-57 | a scaled offset below the span stays below 65535 |
| WasmSorter.DepthBinMonotone | src/viser/client/src/Splatting/WasmSorter/sorter.cpp:54-58 | a larger depth never gets a lower bin |
| WasmSorter.DepthBinEnds | src/viser/client/src/Splatting/WasmSorter/sorter.cpp:54-58 | the minimum depth gets bin 0, and when the depths differ the maximum gets bin 65534, one short of the last bin because of the 1e-5 in the divisor |
| WasmSorter.Bins | src/viser/client/src/Splatting/WasmSorter/sorter.cpp:56-58 | every depth is replaced by its bin, one per Gaussian, all within range |
| WasmSorter.InversionsShareABin | src/viser/client/src/Splatting/WasmSorter/sorter.cpp:54-68 | when the output puts a deeper Gaussian before a shallower one, the two share a bin: the sort is only as fine as the 16-bit bins |
| WasmSorter.PlacementIsStableSort | src/viser/client/src/Splatting/WasmSorter/sorter.cpp:66-68 | writing each element at its slot gives a permutation of 0 .. n - 1 ordered by bin and, within a bin, by index |
| WasmSorter.Sorter.constructor | src/viser/client/src/Splatting/WasmSorter/sorter.cpp:14-24 | the sorter keeps one centre per four floats of the buffer, taking the first three of each group, and has no sorted indices yet |
| WasmSorter.Sorter.DepthRange | src/viser/client/src/Splatting/WasmSorter/sorter.cpp:41-53 | the minimum and maximum returned bound every depth and are depths of the input |
| WasmSorter.Sorter.CountBins | src/viser/client/src/Splatting/WasmSorter/sorter.cpp:36-60 | each counter holds the number of Gaussians in its bin |
| WasmSorter.Sorter.BucketStarts | src/viser/client/src/Splatting/WasmSorter/sorter.cpp:37-63 | each bucket start is the number of Gaussians in lower bins |
| WasmSorter.Sorter.Place | src/viser/client/src/Splatting/WasmSorter/sorter.cpp:66-68 | every index is written at its slot, each bucket start advancing as its bin fills |
| WasmSorter.Sorter.Sort | src/viser/client/src/Splatting/WasmSorter/sorter.cpp:29-73 | for depths given per centre, the sorted indices are a stable sort of 0 .. n - 1 by depth bin, with bins taken between the actual minimum and maximum depth; no depths give no indices |
| Urdf.Chain | viser/extras/_urdf.py:91-94 | the frames collected start with the frame itself unless it is the base, the base collects nothing, and a frame without a parent before the base is reached is the KeyError |
| Urdf.Reverse | viser/extras/_urdf.py:95 | reversing keeps the length and reads the frames back to front |
| Urdf.NameFromFrame | viser/extras/_urdf.py:91-95 | a frame gets a name exactly when its parent chain reaches the base, and that name is an absolute scene path starting with "/" |
| Urdf.BaseIsRoot | viser/extras/_urdf.py:91-95 | the base frame is named "/" |
| Urdf.NameExtendsParent | viser/extras/_urdf.py:91-95 | a frame's name exists exactly when its parent's does, and is the parent's name followed by "/" and the frame, or "/" and the frame when the parent is the base; the base itself never appears in a name |
| Urdf.ChainDepth | viser/extras/_urdf.py:92-94 | one step of the loop: a frame's chain is the frame followed by its parent's chain, and one exists exactly when the other does |
| Urdf.ViserNameFromFrame | viser/extras/_urdf.py:73-95 | the loop computes the frame's scene-node name, which ends with the frame's own name |
| Urdf.NameEndsWithFrame | viser/extras/_urdf.py:91-95 | the name of every frame other than the base ends with that frame's own name, the last path segment |
| Urdf.JointLimitsKeepsLimitedJoints | viser/extras/_urdf.py:42-52 | the limits mapping holds exactly the joints that have a limit, each with that limit, one entry per limited joint, in joint order |
| Urdf.JointLimits | viser/extras/_urdf.py:42-52 | the table is never longer than the joint list, and a last joint that has a limit is the table's last entry |
| Urdf.JointLimitsMembers | viser/extras/_urdf.py:42-52 | an entry is in the limit table exactly when some joint has that name and that limit |
| Urdf.JointLimitsCount | viser/extras/_urdf.py:42-52 | the table has exactly one entry per joint that has a limit |
| Urdf.GetJointLimits | viser/extras/_urdf.py:42-52 | the loop skips joints without a limit and returns the limits mapping |
| WebsocketInterface.ParentName | client/src/WebsocketInterface.tsx:30 | the parent name of a name with no slash is the root ""; otherwise it is the part before the last slash |
| WebsocketInterface.ParentNameShorter | client/src/WebsocketInterface.tsx:28-39 | the parent name of a non-empty name is shorter, so making parents ends; the empty name is its own parent |
| WebsocketInterface.ParentNameExamples | client/src/WebsocketInterface.tsx:30 | "/a/b" has parent "/a", "/a" has parent "" (the root) and "" has parent "" |
| WebsocketInterface.ClosedHasAncestors | client/src/WebsocketInterface.tsx:28-39 | in a tree closed under parents every ancestor of a node is present |
| WebsocketInterface.WithParents | client/src/WebsocketInterface.tsx:28-39 | adding a node while making parents keeps the root and stores the node |
| WebsocketInterface.WithParentsSpec | client/src/WebsocketInterface.tsx:28-39 | adding a node while making parents stores the node, ensures its parent exists, keeps every other existing node, adds only placeholder frames for missing ancestors, and keeps the tree closed under parents |
| WebsocketInterface.NotOwnAncestor | client/src/WebsocketInterface.tsx:28-39 | every ancestor of a name is shorter than it |
| WebsocketInterface.RemoveSubtree | client/src/WebsocketInterface.tsx:199-203 | the effect assumed for the store's removeSceneNode: the named node and every node under "name/" leave the tree, the root stays, and every other node is kept unchanged |
| WebsocketInterface.RemoveSubtreeKeepsClosed | client/src/WebsocketInterface.tsx:199-203 | handling remove_scene_node, with RemoveSubtree standing for the store's removal, keeps the scene tree closed under parents and removes the named node unless it is the root |
| WebsocketInterface.QuaternionReorderRoundTrip | client/src/WebsocketInterface.tsx:53-59 | the wire order (w, x, y, z) and the renderer's order (x, y, z, w) convert into each other without loss, w coming from the first wire element |
| WebsocketInterface.SliceView | client/src/WebsocketInterface.tsx:74-82 | slicing a byte view copies the bytes from its offset for its length, and never more than its length |
| WebsocketInterface.RenderQuaternion | client/src/WebsocketInterface.tsx:53-59 | the renderer quaternion read back in wire order is the (w, x, y, z) received |
| WebsocketInterface.Step | client/src/WebsocketInterface.tsx:43-250 | every message keeps the root node |
| WebsocketInterface.Fold | client/src/WebsocketInterface.tsx:43-315 | handling messages in arrival order keeps the root node |
| WebsocketInterface.UnknownMessageChangesNothing | client/src/WebsocketInterface.tsx:247-250 | a message of unknown type changes nothing |
| WebsocketInterface.LevaConfUpdateRule | client/src/WebsocketInterface.tsx:232-241 | a config update for an unknown input is ignored; for a known one it replaces the config, keeps the folder, and touches nothing else |
| WebsocketInterface.ParentSynthesisByKind | client/src/WebsocketInterface.tsx:46-197 | frames, point clouds, frusta and images are added with their parents made; meshes are added without; no other node changes |
| WebsocketInterface.FrameStoresReorderedQuaternion | client/src/WebsocketInterface.tsx:46-65 | a frame node is stored with its scale, position, axes flag and the quaternion reordered from (w, x, y, z) |
| WebsocketInterface.StepKeepsClosed | client/src/WebsocketInterface.tsx:43-250 | every message other than a mesh keeps the scene tree closed under parents |
| WebsocketInterface.ResetSceneRule | client/src/WebsocketInterface.tsx:209-217 | a reset keeps only the root and clears the visibilities; with a wrapper element the background is cleared and marked unavailable, and without one the handler throws after the reset; GUI entries are kept |
| WebsocketInterface.Close | client/src/WebsocketInterface.tsx:291-295 | on close the connection is marked lost and no GUI input is left (resetGui runs only when there are entries); the scene and the visibilities are kept |
| WebsocketInterface.FoldAppend | client/src/WebsocketInterface.tsx:300-315 | handling two batches one after another is handling their concatenation |
| WebsocketInterface.Failures | client/src/WebsocketInterface.tsx:300-315 | the number of handlers that throw over a batch, at most one per message |
| WebsocketInterface.StepFailsOnlyOnWrapperlessReset | client/src/WebsocketInterface.tsx:209-216 | a handler throws only on a reset while there is no wrapper element, and no message adds or removes that element |
| WebsocketInterface.FailuresAreWrapperlessResets | client/src/WebsocketInterface.tsx:300-315 | over a batch, no handler throws when the wrapper element exists, and without it exactly the reset messages throw |
| WebsocketInterface.Client.constructor | client/src/WebsocketInterface.tsx:13-24 | the client starts with only the root node, no visibilities, no GUI entries and disconnected |
| WebsocketInterface.Client.AddSceneNode | client/src/WebsocketInterface.tsx:20 | the node is stored under its name, replacing any earlier one |
| WebsocketInterface.Client.AddSceneNodeMakeParents | client/src/WebsocketInterface.tsx:28-39 | the scene becomes the tree with the node added and its missing ancestors made |
| WebsocketInterface.Client.HandleMessage | client/src/WebsocketInterface.tsx:43-250 | handling one message gives the new state and success of the message step |
| WebsocketInterface.Client.HandleSceneMessage | client/src/WebsocketInterface.tsx:46-218 | a scene, background or reset message leaves the stores in the state the message step gives, and reports failure only for a reset without a wrapper element |
| WebsocketInterface.Client.HandleGuiMessage | client/src/WebsocketInterface.tsx:219-250 | a GUI message, or one of unknown type, leaves the stores in the state the message step gives and always succeeds |
| WebsocketInterface.Client.HandleAll | client/src/WebsocketInterface.tsx:300-315 | the messages are handled in order, and the count returned is the number of handlers that threw along the way |
| WebsocketInterface.Client.OnClose | client/src/WebsocketInterface.tsx:291-295 | the state becomes the closed state |

## Left out

- Sockets, threads, the asyncio event loop, timers and `time.time()` are not modelled.
  - The current time, which ports are free and how many elements arrive before a window times out are parameters.
  - Waiting on an event is a step that changes nothing.
- msgpack encoding and decoding, WebGL, three.js objects, React rendering and the web worker are not modelled.
  - Scene objects are opaque values.
  - Messages are datatypes holding the fields the code reads.
- The scene-tree store (`addSceneNode`, `removeSceneNode`, `resetScene`) is not part of this model. It is represented by the map its callers read and write.
- WebsocketInterface.RemoveSubtree: the effect of the store's `removeSceneNode` is assumed, not modelled from its code: the name and every name under "name/" are deleted and the root "" is kept.
- WebsocketInterface.RemoveSubtreeKeepsClosed: holds for the assumed `removeSceneNode` effect above, and so does the remove case of WebsocketInterface.StepKeepsClosed.
- WebsocketInterface.ResetSceneRule: the node part rests on an assumed `resetScene` effect, which keeps only the root node and clears the visibilities. The reset case of WebsocketInterface.StepKeepsClosed rests on the same assumption.
- WebsocketInterface.StepKeepsClosed: its remove and reset cases hold for the assumed store effects named in the two lines above.
- WebsocketInterface.Close: assumes that `resetGui` empties the config and value maps and that `guiNames` lists exactly the config keys. The GUI store of this client is not part of this model.
- `viser/_gui_api.py` and `SceneNodeHandle._make` are not part of this model. Container ids and handle creation are parameters.
- Floating point is modelled by exact reals, and `float` to `int` casts by truncation toward zero.
  - Rounding in `round(x, d)`, `colorsys` and the float32 depth scale is therefore exact.
  - The HLS palette interpolation of `configure_theme` is an input: the ten RGB triples it yields.
- `viser/_async_message_buffer.py`'s `__aiter__` (its per-client cursor) is not modelled. Only `push` and the cascade belong to the modelled part of that file.
- `MessageWindow.wait_and_append_to_window` is not modelled, because nothing in the modelled code calls it.
- The HTTP handler's file read, MIME guess and 404 reply are not modelled. The model stops at the relative path served. Infra.HttpRouteUnderRoot, the corrected route, answers a path with a ".." segment with the 404 reply.
- WasmSorter.Sorter.Sort: takes the projected integer depths as input.
  - It does not compute them from the view-projection entries and the centres.
  - Bins are computed with exact reals rather than float32, so a depth on a bin boundary may fall in the neighbouring bin in the source.
- WasmSorter.Sorter.Sort: an empty input gives an empty result array. The source takes `&sorted_indices[0]` of an empty vector, which is undefined behaviour.
- WasmSorter.Sorter.constructor: reads the centres from a sequence of reals. The source reads them through a float32 view of the buffer's bytes.
- WasmSorter.DepthBin: computes the bin in exact reals. The source scales in float32.
- GaussianSplats.NumGaussians: a buffer whose length is not a multiple of four is floored, as `/ 4` on integers would be. The source divides floats.
- Icons.Upper and Icons.Lower: only ASCII letters change case. Python's `upper` and `lower` also map other Unicode letters.
- SceneTreeTable.SubRows: the tree walk carries a depth bound (`fuel`) and stops at it. The source walks until a node has no children.
- Urdf.ViserNameFromFrame: requires that the parent chain reaches the base within a ghost depth bound. The source loops forever on a cycle, while a missing parent is modelled as the KeyError.
- HandleRules.FromArray: arrays are flat sequences with a shape. numpy dtypes are not modelled.
- Gui.GuiHandleState.SetValue: records one call per update callback, in order, as if each thread calls its own callback. In the source each thread's `lambda: cb(self)` reads the loop variable `cb` only when it runs (viser/_gui.py:121), so a thread that starts late can call a later callback instead. Thread scheduling is not modelled.
- GuiHandles.GuiHandleState.SetValue: the same late binding of `cb` applies (viser/_gui_handles.py:131) and is not modelled.
- HandleRules.Convert: `int()` and `float()` of a string accept only an optional sign, decimal digits and, for `float()`, one point. Python also accepts surrounding whitespace, underscores between digits, exponents, "inf", "nan" and non-ASCII digits.
- HandleRules.Convert: `str()` of a float is written as the whole part, a point and at most 17 digits of the exact fraction. Python writes the shortest text that reads back as the same double, and uses exponent notation below 1e-4 and from 1e16.
- HandleRules.Convert: `tuple()` of a string gives a tuple of one-character strings in Python. That is not a GUI value in this model, so the model gives an error there.
- HandleRules.Convert: values a user assigns are GUI values (bools, strings, ints, floats and tuples of numbers). Other Python objects, and their own conversion hooks, are not modelled.
- MessageApi.ByteFromUnit: states the rounding bound only for channels in [0, 1]. Other channels are clamped first, as in the source.
- MessageApiLegacy.PrecisionDigits: uses exact decimal rounding. For binary floats such as 0.1, Python's `round` can give a different digit count.
- Infra.AsyncWindowCollector.Anext: how many elements arrive before the window times out is a parameter.
- WebsocketInterface.Client.HandleAll: the order lock becomes a sequential fold over the messages in arrival order.

## Findings

| source | as written | input that shows it | evidently intended | confidence | as-written member | corrected member |
|---|---|---|---|---|---|---|
| src/viser/infra/_async_message_buffer.py:49-50 | a non-persistent consumer pops sent messages, but `id_from_redundancy_key` still maps their key to the popped id, so the next push with that key runs `message_from_id.pop(old_id)` on a missing id | push a message with key k, let the consumer send it, then push another message with key k | the older message is dropped if it is still buffered, and the key is remapped either way | medium, not executed | BufferCore.PushAfterSendRaises | BufferCore.PushSpec |
| viser/infra/_infra.py:408-411 | a full window breaks before `next_element` is replaced, so the next window starts with the last element again | `max_length` 2 and elements arriving quickly: windows [0, 1] then [1, 2] | consecutive windows continue the stream, each element sent once | high, not executed | Infra.FullWindowRepeatsLastElement | Infra.WindowsPartitionTheStream |
| viser/infra/_infra.py:269-275 | `Path(path).relative_to("/")` keeps ".." segments, so the file served can lie outside the client build directory | the raw request path "/../name" (sent without client-side normalisation) serves "../name" | only files under the server root are served | medium (an HTTP front end may normalise paths first), not executed | Infra.DotDotLeavesRoot | Infra.ServedPathStaysUnderRoot |
| src/viser/_message_api.py:170-196 | a ten-entry `brand_color` passes the length assertion, but only the three-entry branch sets `colors_cast`, so the theme is sent with no palette | `brand_color` of ten "#ffffff" strings | the ten given colours are used as the palette | medium, not executed | MessageApi.TenColorBrandIsDropped | MessageApi.ThemeColors |
| src/viser/client/src/Splatting/GaussianSplats.tsx:169-266 | `initializedTextures` is set by the first sort result and never reset when the buffers change, so new buffers never reach the textures and the uniform `numGaussians`, set to 0 by the new material, stays 0 | load buffers, receive a sort result, then load new buffers and receive another | each new buffer set is uploaded on the first sort result after it | low (the component may be remounted per buffer), not executed | GaussianSplats.ReplacedBuffersStayHidden | GaussianSplats.FirstSortAfterLoadUploads |
| src/viser/_icons_generate_enum.py:14-69 | the enum prefixes "ICON_" to names starting with a digit, but the runtime converter only lower-cases and turns "_" into "-", so the prefix stays in the icon name | `Icon.ICON_2FA`, documented as the `2fa` icon, resolves to "icon-2fa" | the prefix is dropped, giving "2fa" | medium, not executed | Icons.DigitIconMissesItsName | Icons.CorrectedRoundTrip |
