# OpenGL sandbox and Arduino macro pad: a Dafny model

This project models the integer and state logic of a small C++ OpenGL
application with an attached Arduino macro pad:

- **Macro pad controller.** This covers:
  - the default command map: six media keys, `KEY0`..`KEY440` launching Spotify, and `KEY5` taking a screenshot;
  - the newline framing of the serial command stream and the dispatch of each command to its action;
  - the `SendInput` event array of a key macro;
  - the JSON configuration, modelled as a map from command name to record;
  - the LED frame written to the port `LEDSDATA\n\0` followed by 441 × 3 colour bytes.
- **Buffers.** This covers the shader data type tables, vertex buffer layouts and their strides, the attribute offsets of a vertex array, and vertex and index buffer bookkeeping.
- **2D batch renderer.** This covers:
  - the generated index pattern;
  - texture slot allocation;
  - the quad and circle batches;
  - the flush rules and the `uint32_t` statistics.
- **Render shader and compute shader.** This covers:
  - the `#type` section splitting of a shader file;
  - the checks `Load` makes before creating a program;
  - the uniform location cache and the `-1` guard on every setter;
  - the texture setter;
  - binding and move semantics.
- **Framebuffer.** This covers:
  - the partition of attachments into colour attachments and one depth attachment;
  - the internal formats;
  - the draw-buffer decision;
  - the bounds-checked colour attachment getter;
  - move semantics.
- **Input.** This covers the key and mouse-button state tables updated by the window callbacks, the mouse position, the scroll delta and its per-frame reset, the cursor mode and the pressed/released queries.

Classes of the program whose fields change in place are Dafny classes: the controller, the renderer, the buffers, both shaders, the framebuffer and the input state. Their methods list what they modify. Buffers the program fills in place are arrays: the LED array, the vertex arrays, the sampler and used-texture tables, the key and button tables, and the INPUT and draw-buffer arrays. Loops of the program are loops here, each proved against a specification function.

Everything the operating system, the GL driver or the serial port decides is a parameter, never a call:
- generated GL ids and compile results;
- `glGetUniformLocation` answers, and the `glCheckFramebufferStatus` answer for each framebuffer that can be bound;
- `GL_MAX_TEXTURE_IMAGE_UNITS`;
- the bytes the port delivers;
- whether opening the port succeeds.

Effects on the outside world are returned values:
- `SendInput` events and process launches;
- GL uploads and texture binds;
- draw calls;
- the bytes written to the port.

Source files are `Lines` values, or `Unopenable`.

Files:
- `lines.dfy`: newline joining and splitting, shared by the shaders and the serial framer.
- `actions.dfy`, `macro_pad.dfy`: the macro pad.
- `buffer.dfy`, `renderer2d.dfy`: the buffers and the 2D renderer.
- `uniform_cache.dfy`, `shader.dfy`, `compute_shader.dfy`: the shaders.
- `framebuffer.dfy`, `input.dfy`: the framebuffer and the input state.

### Where the code and its comments or documentation part ways

The model follows the code.

- **Key releases.** `PerformAction` (src/ArduinoMacroPadController.cpp:134-143) is commented "key releases in the reverse order". However, it writes the release of `keys[i]` at index `n + i`, so the keys are released in the order they were listed. `Actions.ReleasesFollowListedOrder` shows this for two keys.
- **Frame header.** `asio::buffer("LEDSDATA\n")` (src/ArduinoMacroPadController.cpp:414) wraps the whole character array, including its terminating NUL. The header is therefore 10 bytes, not 9.
- **Loading a configuration.** The configuration loader does not check entries before merging them. An entry that cannot be read throws halfway through, and the entries merged before it stay merged. The model visits the entries in the object's name order, as `items()` lists the names of a JSON object, and returns `ok == false` in that case. It states that exactly the entries listed before the first malformed one were merged.

## Model

| member | source | states |
|---|---|---|
| Lines.JoinLinesAppend | src/Core/Graphics/ComputeShader.cpp:18-21 | writing lines one after another gives the concatenation of their parts |
| Lines.JoinLinesEmpty | src/Core/Graphics/ComputeShader.cpp:92-95 | newline-terminated code is empty exactly when there are no lines |
| Lines.JoinLinesEndsWithNewline | src/Core/Graphics/ComputeShader.cpp:20 | code of at least one line ends with a newline |
| Lines.SplitLinesJoin | src/ArduinoMacroPadController.cpp:350-362 | splitting a byte stream at newlines gives newline-free commands and a pending rest that rebuild the stream |
| Lines.JoinLinesSplit | src/ArduinoMacroPadController.cpp:350-362 | splitting the text written for newline-free lines and a rest gives back exactly those lines and that rest |
| Lines.JoinLinesUnique | src/ArduinoMacroPadController.cpp:350-362 | a stream has only one decomposition into commands and a pending rest |
| Actions.PressesAt | src/ArduinoMacroPadController.cpp:128-132 | press number i is a key-down of keys[i] |
| Actions.ReleasesAt | src/ArduinoMacroPadController.cpp:136-143 | release number i is a key-up of keys[i] |
| Actions.MacroIsPressesThenReleases | src/ArduinoMacroPadController.cpp:122-147 | a key macro sends every press in listed order, then every release |
| Actions.ReleasesFollowListedOrder | src/ArduinoMacroPadController.cpp:134-143 | with two distinct keys, the first key is released first, not the last |
| Actions.PerformAction | src/ArduinoMacroPadController.cpp:116-158 | the zero-filled INPUT array filled by the two loops equals the macro's event sequence (2n entries, presses then releases); NONE does nothing; OPEN_PROCESS launches its path |
| Actions.SerializeAction | src/ArduinoMacroPadController.cpp:41-54 | the record holds the type's name, the key list only for KEY_MACRO and the process path only for OPEN_PROCESS (no ensures; its round trip is Actions.ActionRoundTrip) |
| Actions.ActionTypeToString | src/ArduinoMacroPadController.cpp:16-20 | every action type has a name, and that name reads back as the same type |
| Actions.StringToActionType | src/ArduinoMacroPadController.cpp:22-26 | a known name reads as the type whose name it is; an unknown name reads as NONE |
| Actions.ActionTypeNamesInverse | src/ArduinoMacroPadController.cpp:16-26 | the two global tables are inverse bijections over "none", "key_macro", "open_process" |
| Actions.DeserializeAction | src/ArduinoMacroPadController.cpp:56-72 | a record without action_type is malformed; the type is the table's reading of the name; a key macro's keys are the JSON numbers cut to unsigned char; an open-process action's path is the stored string |
| Actions.ActionRoundTrip | src/ArduinoMacroPadController.cpp:41-72 | reading back the record written for an action gives the same type and the payload that type uses |
| MacroPad.DecimalDigitsShort | src/ArduinoMacroPadController.cpp:225 | `to_string` of a number has one digit exactly below 10 |
| MacroPad.DecimalDigitsInjective | src/ArduinoMacroPadController.cpp:225 | different numbers are written differently |
| MacroPad.KeyNameInjective | src/ArduinoMacroPadController.cpp:225 | "KEY"+i names are equal exactly when the numbers are |
| MacroPad.KeyNameNotNamed | src/ArduinoMacroPadController.cpp:176-225 | no key name collides with a media command name |
| MacroPad.RegistryContents | src/ArduinoMacroPadController.cpp:176-226 | after the media commands and the first n keys, the map holds the six media actions, Spotify for KEY0..KEYn-1, nothing else, and 6+n entries |
| MacroPad.RegistryKeepsNamed | src/ArduinoMacroPadController.cpp:176-226 | entering keys leaves the six media commands and their actions in place |
| MacroPad.RegistryKeys | src/ArduinoMacroPadController.cpp:220-226 | each of the first n keys is in the map and launches Spotify |
| MacroPad.RegistryDomain | src/ArduinoMacroPadController.cpp:176-226 | every name in the map is a media command or one of KEY0..KEYn-1 |
| MacroPad.RegistrySize | src/ArduinoMacroPadController.cpp:176-226 | every key name entered is new, so the map has 6+n entries |
| MacroPad.OverriddenRegistryContents | src/ArduinoMacroPadController.cpp:220-231 | overriding KEY5 replaces one entry and keeps the size and the other entries |
| MacroPad.DefaultCommandsContents | src/ArduinoMacroPadController.cpp:176-231 | the default map has 447 entries: the six media key macros, KEY5 the Win+Shift+S macro, every other KEY0..KEY440 Spotify |
| MacroPad.NamedCommandsSize | src/ArduinoMacroPadController.cpp:176-216 | the six media command names are distinct |
| MacroPad.ReceivedTextStep | src/ArduinoMacroPadController.cpp:348-363 | one more read adds its byte to the received text, or nothing when no byte was read |
| MacroPad.SplitLinesStep | src/ArduinoMacroPadController.cpp:352-362 | a newline ends the pending command; any other byte is appended to it |
| MacroPad.Dispatch | src/ArduinoMacroPadController.cpp:325-335 | a name in the map performs its action's effects, any other name does nothing (no ensures; stated by MacroPadController.ProcessCommand) |
| MacroPad.DispatchAllStep | src/ArduinoMacroPadController.cpp:352-358 | processing one more command appends its effects |
| MacroPad.MacroPadController.constructor | src/ArduinoMacroPadController.cpp:162-231 | every LED purple (175,45,246), the default command map, baud rate 9600, port closed |
| MacroPad.MacroPadController.ConnectToPort | src/ArduinoMacroPadController.cpp:269-289 | name and baud rate are recorded whatever happens; the listener starts only when opening and setting the baud rate both succeed |
| MacroPad.MacroPadController.Disconnect | src/ArduinoMacroPadController.cpp:291-297 | the port is closed afterwards; close is called only if it was open |
| MacroPad.MacroPadController.ProcessCommand | src/ArduinoMacroPadController.cpp:325-335 | a mapped command performs its action; an unknown command does nothing |
| MacroPad.MacroPadController.ReceiveChar | src/ArduinoMacroPadController.cpp:350-362 | one received character keeps the commands processed and the pending command equal to the line split of the text received so far, and the effects those of the commands processed |
| MacroPad.MacroPadController.CommandListenerProcess | src/ArduinoMacroPadController.cpp:337-370 | the loop stops at the first read error; the commands processed are exactly the newline-terminated lines of the bytes received before it, in order, and the unterminated rest stays pending |
| MacroPad.MacroPadController.Update | src/ArduinoMacroPadController.cpp:410-416 | nothing is written while the port is closed; otherwise the 10-byte header then r, g, b of each of the 441 LEDs, 1333 bytes |
| MacroPad.MacroPadController.SerializeConfig | src/ArduinoMacroPadController.cpp:299-310 | one record per command name, each as SerializeAction writes it |
| MacroPad.MacroPadController.DeserializeConfig | src/ArduinoMacroPadController.cpp:312-323 | entries are merged in name order; when every entry reads back, the map becomes the old map overridden by the decoded entries; otherwise ok is false and the map is the old map with exactly the entries named before the first malformed one merged |
| MacroPad.MalformedStop | src/ArduinoMacroPadController.cpp:317-322 | when the name-ordered merge meets a malformed entry, that entry is the first malformed one and the entries merged are exactly those named before it |
| MacroPad.EarlierEntryStaysMerged | src/ArduinoMacroPadController.cpp:317-322 | loading {"A": a NONE action, "B": no action type} fails, and "A", listed before "B", stays merged with its action |
| MacroPad.NameBeforeIrreflexive | src/ArduinoMacroPadController.cpp:317 | no name is listed before itself |
| MacroPad.NameBeforeTotal | src/ArduinoMacroPadController.cpp:317 | of two different names exactly one is listed first |
| MacroPad.NameBeforeTransitive | src/ArduinoMacroPadController.cpp:317 | the listing order of names is transitive |
| MacroPad.FirstNameInsert | src/ArduinoMacroPadController.cpp:317 | adding a name to a set keeps the earlier first name unless the new name comes before it |
| MacroPad.FirstNameExists | src/ArduinoMacroPadController.cpp:317 | every non-empty set of names has a first name, so `items()` has a next entry to visit |
| MacroPad.FirstMalformedFacts | src/ArduinoMacroPadController.cpp:317-322 | a config object has a first malformed entry exactly when some entry is malformed, and only one |
| MacroPad.FrameHeaderIsLiteral | src/ArduinoMacroPadController.cpp:414 | the header is the characters of "LEDSDATA\n" followed by a NUL byte |
| MacroPad.LedBytesAt | src/ArduinoMacroPadController.cpp:415 | byte 3i, 3i+1, 3i+2 of the LED block is r, g, b of LED i |
| MacroPad.MergeDecodedStep | src/ArduinoMacroPadController.cpp:317-322 | merging one more entry assigns its decoded action to its name |
| MacroPad.MergeDecodedFacts | src/ArduinoMacroPadController.cpp:317-322 | names not merged keep their action; merged names hold their decoded entry; merging every entry gives the old map overridden by the config |
| MacroPad.ConfigRoundTrip | src/ArduinoMacroPadController.cpp:299-323 | loading the configuration written for a map into any map gives every saved name its action back (its used payload) and leaves other names alone |
| Buffer.ShaderDataTypeToSize | src/Core/Graphics/Buffer.cpp:6-24 | bytes: Float 4, Float2 8, Float3 12, Float4 16, Mat3 36, Mat4 64, Int 4, Int2 8, Int3 12, Int4 16, Bool 1, None 0 (no ensures; checked against the other tables by Buffer.TablesAgree) |
| Buffer.ShaderDataTypeToCount | src/Core/Graphics/Buffer.cpp:26-44 | components: Float 1, Float2 2, Float3 3, Float4 4, Mat3 9, Mat4 16, Int 1, Int2 2, Int3 3, Int4 4, Bool 1, None 0 (no ensures) |
| Buffer.ShaderDataTypeToOpenGLBaseType | src/Core/Graphics/Buffer.cpp:46-64 | GL_FLOAT (0x1406) for Float..Mat4, GL_INT (0x1404) for Int..Int4, GL_BOOL (0x8B56) for Bool, 0 for None (no ensures; classified by Buffer.BaseTypeClasses) |
| Buffer.TablesAgree | src/Core/Graphics/Buffer.cpp:6-64 | size = component bytes × component count for every data type; 4 bytes per component except Bool; only None has size, count or base type 0 |
| Buffer.BaseTypeClasses | src/Core/Graphics/Buffer.cpp:46-64 | Float* and Mat* are GL_FLOAT, Int* are GL_INT, Bool is GL_BOOL |
| Buffer.SumSizesAppend | src/Core/Graphics/Buffer.cpp:73-83 | the size of concatenated element lists is the sum of their sizes |
| Buffer.DefaultLayoutIsEmptyLayout | src/Core/Graphics/Buffer.cpp:68-71 | the default layout equals the layout of no elements (stride 0) |
| Buffer.NewVertexBufferLayout | src/Core/Graphics/Buffer.cpp:73-83 | the layout keeps the elements in order and its stride is the sum of their sizes |
| Buffer.AttributeOffsetsTile | src/Core/Graphics/Buffer.cpp:162-186 | each attribute starts where the previous one ends and every attribute fits within the stride |
| Buffer.SetVertexAttributes | src/Core/Graphics/Buffer.cpp:145-188 | attribute i gets location i, its type's count and base type, the layout's stride and the sizes before it as offset; the final offset equals the stride |
| Buffer.RendererLayouts | src/Core/Graphics/Renderer2D.cpp:44-49 | quad and circle vertices are 40 bytes; quad attributes at 0, 12, 16, 24; circle attributes at 0, 12, 20, 24 |
| Buffer.VertexBuffer.constructor | src/Core/Graphics/Buffer.cpp:87-96 | the size is recorded; the usage is static with data and dynamic without |
| Buffer.VertexBuffer.SetLayout | src/Core/Graphics/Buffer.cpp:109-112 | the layout is replaced |
| Buffer.IndexBuffer.constructor | src/Core/Graphics/Buffer.cpp:121-131 | count and data recorded; byte size is 4 × count |
| Renderer2D.VertexSizesMatchLayouts | include/Core/Graphics/Renderer2D.h:21-35 | `sizeof(QuadVertex)` and `sizeof(CircleVertex)` equal the strides of the layouts declared for them |
| Renderer2D.IndexPatternAt | src/Core/Graphics/Renderer2D.cpp:63-72 | index 6q+m is 4q plus the m-th corner of (0,1,2,2,3,0) |
| Renderer2D.ShapeIndices | src/Core/Graphics/Renderer2D.cpp:63-72 | shape q uses indices 4q, 4q+1, 4q+2, 4q+2, 4q+3, 4q |
| Renderer2D.DrawnIndicesInRange | src/Core/Graphics/Renderer2D.cpp:255 | drawing 6n indices refers only to the first 4n vertices |
| Renderer2D.WriteShapeIndices | src/Core/Graphics/Renderer2D.cpp:64-71 | one loop step writes exactly the six indices of its shape, following the pattern, and nothing else |
| Renderer2D.GenerateIndices | src/Core/Graphics/Renderer2D.cpp:59-72 | the loop fills 6·max indices, each equal to the index pattern |
| Renderer2D.IndexOf | src/Core/Graphics/Renderer2D.cpp:348-357 | the result is -1 exactly when the texture is absent; otherwise it is the first position holding the texture |
| Renderer2D.IndexOfUnique | src/Core/Graphics/Renderer2D.cpp:348-357 | the first occurrence is the one found |
| Renderer2D.SlotAllocation | src/Core/Graphics/Renderer2D.cpp:348-364 | slot allocation keeps the batch's textures distinct and non-null, gives the texture a slot holding it, and adds at most one entry at the end |
| Renderer2D.MakeTextureTables | src/Core/Graphics/Renderer2D.cpp:24-30 | sampler i is i for every texture unit; every used-texture slot is null |
| Renderer2D.MakeShapeBuffers | src/Core/Graphics/Renderer2D.cpp:34-80 | a vertex buffer for 4·max vertices with the given layout; an index buffer of 6·max indices following the pattern; one attribute per layout element at its offset |
| Renderer2D.Renderer2D.constructor | src/Core/Graphics/Renderer2D.cpp:9-136 | empty batches, zero statistics, samplers and used textures set up, both index buffers following the pattern, both layouts and attribute offsets |
| Renderer2D.Renderer2D.ResetStats | src/Core/Graphics/Renderer2D.cpp:162-167 | the three statistics are zero |
| Renderer2D.Renderer2D.BeginBatch | src/Core/Graphics/Renderer2D.cpp:198-212 | the quad, texture and circle counts are zero; statistics are untouched |
| Renderer2D.Renderer2D.FlushQuads | src/Core/Graphics/Renderer2D.cpp:230-267 | with no quads nothing happens; otherwise one draw call with the used textures, the samplers, the pending vertices and 6 indices per quad; used slots emptied; uint32 statistics incremented; counts zero |
| Renderer2D.Renderer2D.FlushCircles | src/Core/Graphics/Renderer2D.cpp:269-296 | with no circles nothing happens; otherwise one draw call with the pending vertices, statistics incremented modulo 2^32, count zero |
| Renderer2D.Renderer2D.Flush | src/Core/Graphics/Renderer2D.cpp:298-307 | quads then circles are drawn; the statistics grow by the draw calls made and the shapes drawn, modulo 2^32 |
| Renderer2D.Renderer2D.FindTextureSlot | src/Core/Graphics/Renderer2D.cpp:348-357 | the slot found is the first position of the texture among the batch's textures, or -1 |
| Renderer2D.Renderer2D.DrawQuad | src/Core/Graphics/Renderer2D.cpp:336-399 | a null texture draws nothing; a full batch or full texture table flushes first, adding one draw call and the pending quads to the statistics, which are otherwise unchanged; the texture gets its existing slot or the next one; four vertices with that slot, the corner uvs and the colour; quad count +1 |
| Renderer2D.Renderer2D.AddQuad | src/Core/Graphics/Renderer2D.cpp:346-399 | with room in the batch: the used textures gain the texture if new, the quad count grows by one, the four new vertices carry its slot, earlier vertices are unchanged, and the batch stays valid |
| Renderer2D.Renderer2D.AllocateTextureSlot | src/Core/Graphics/Renderer2D.cpp:346-364 | the slot is the texture's first slot in the batch or a new last slot holding it; the used textures stay distinct |
| Renderer2D.Renderer2D.WriteQuadVertices | src/Core/Graphics/Renderer2D.cpp:386-396 | exactly the four vertices of the quad are written, each with the slot, its uv and the colour |
| Renderer2D.Renderer2D.DrawCircle | src/Core/Graphics/Renderer2D.cpp:414-452 | a full batch flushes first, adding one draw call and the pending circles to the statistics, which are otherwise unchanged; four vertices with the corner uvs, thickness and colour; circle count +1 |
| Renderer2D.QuadBatchInRange | src/Core/Graphics/Renderer2D.cpp:251-255 | a quad draw call never addresses a vertex beyond those uploaded, nor more than the index buffer holds |
| UniformCache.LookupCaches | src/Core/Graphics/Shader.cpp:163-186 | after a lookup the name is cached with the location returned, even -1; only an uncached name is asked of the driver; no other entry changes |
| UniformCache.LookupStable | src/Core/Graphics/Shader.cpp:167-171 | a second lookup returns the first answer without asking the driver and leaves the cache alone |
| UniformCache.SetterGuard | src/Core/Graphics/Shader.cpp:188-254 | a setter issues nothing for location -1, and otherwise exactly one upload, to that location |
| Shader.ContainsAt | src/Core/Graphics/Shader.cpp:36-41 | `find(pattern) != npos` holds exactly when the pattern occurs at some position |
| Shader.FirstCharAbsent | src/Core/Graphics/Shader.cpp:36-41 | a pattern whose first character is not in the line is not found |
| Shader.ParseShader | src/Core/Graphics/Shader.cpp:18-49 | the two section codes are the newline-terminated non-directive lines of each section in file order; an unopenable file gives two empty codes |
| Shader.SectionsPartitionBody | src/Core/Graphics/Shader.cpp:34-45 | every non-directive line lands in exactly one section, and no directive lands in either |
| Shader.NoDirectiveAllVertex | src/Core/Graphics/Shader.cpp:32-45 | with no directive everything is vertex code and the fragment code is empty |
| Shader.AppendBody | src/Core/Graphics/Shader.cpp:43-44 | lines after the last directive go to the section in force and leave the other section unchanged |
| Shader.AppendDirective | src/Core/Graphics/Shader.cpp:36-42 | a directive contributes no code; "vertex" selects VERTEX, otherwise "fragment" selects FRAGMENT |
| Shader.VertexSection | src/Core/Graphics/Shader.cpp:32-45 | a vertex directive followed by plain lines makes all of them vertex code |
| Shader.TwoSectionFile | src/Core/Graphics/Shader.cpp:18-49 | "#type vertex", V, "#type fragment", F splits into exactly V and F |
| Shader.StandardDirectives | src/Core/Graphics/Shader.cpp:36-41 | "#type vertex" and "#type fragment" are directives and select the section they name |
| Shader.LoadOutcomes | src/Core/Graphics/Shader.cpp:112-161 | an unopenable file or one without a directive never loads; with both sections non-empty, loading succeeds exactly when both compiles succeed |
| Shader.Shader.constructor | src/Core/Graphics/Shader.cpp:86-89 | id 0, empty path and cache |
| Shader.Shader.FromFile | src/Core/Graphics/Shader.cpp:100-103 | loads at construction; id and path set on success, id 0 on failure |
| Shader.Shader.Load | src/Core/Graphics/Shader.cpp:112-161 | id reset to 0; success exactly when both sections are non-empty and both compile; only then are the program id and path set |
| Shader.Shader.GetUniformLocation | src/Core/Graphics/Shader.cpp:163-186 | returns and caches as the cache lookup says |
| Shader.Shader.SetUniform | src/Core/Graphics/Shader.cpp:188-254 | looks the location up, then issues the guarded upload; the texture setter uploads the unit and binds the texture to it |
| Shader.Shader.Move | src/Core/Graphics/Shader.cpp:91-98 | id, path and cache taken over; the other shader's id is 0 |
| Shader.Shader.MoveAssign | src/Core/Graphics/Shader.cpp:261-273 | self-assignment changes nothing; otherwise as the move constructor |
| ComputeShader.ParseComputeShader | src/Core/Graphics/ComputeShader.cpp:9-25 | the code is every line followed by a newline; an unopenable file gives "" |
| ComputeShader.ComputeCodeFacts | src/Core/Graphics/ComputeShader.cpp:9-25 | the code is empty exactly when the file does not open or is empty; splitting it gives back the file's lines |
| ComputeShader.UninitialisedIdSurvivesFailedLoad | src/Core/Graphics/ComputeShader.cpp:76-102 | a failed load in the path constructor leaves the uninitialised id, which need not be 0 |
| ComputeShader.InitialisedIdAfterLoad | src/Core/Graphics/ComputeShader.cpp:62-65 | starting from id 0, the id after a load is 0 exactly when the load failed |
| ComputeShader.FailedLoadKeepsId | src/Core/Graphics/ComputeShader.cpp:88-102 | an unopenable file or a failed compile keeps the earlier program id |
| ComputeShader.ComputeShader.constructor | src/Core/Graphics/ComputeShader.cpp:62-65 | id 0, empty path and cache |
| ComputeShader.ComputeShader.FromFileAsWritten | src/Core/Graphics/ComputeShader.cpp:76-79 | loads over an uninitialised id |
| ComputeShader.ComputeShader.FromFile | src/Core/Graphics/ComputeShader.cpp:62-79 | loads from id 0: id and path set on success, id 0 on failure |
| ComputeShader.ComputeShader.Load | src/Core/Graphics/ComputeShader.cpp:88-120 | success exactly when the code is non-empty and compiles; only then are the program id and path set, and otherwise they are left unchanged |
| ComputeShader.ComputeShader.GetUniformLocation | src/Core/Graphics/ComputeShader.cpp:129-152 | returns and caches as the cache lookup says |
| ComputeShader.ComputeShader.SetUniform | src/Core/Graphics/ComputeShader.cpp:154-208 | looks the location up, then issues the guarded upload |
| ComputeShader.ComputeShader.Move | src/Core/Graphics/ComputeShader.cpp:67-74 | id, path and cache taken over; the other shader's id is 0 |
| ComputeShader.ComputeShader.MoveAssign | src/Core/Graphics/ComputeShader.cpp:218-230 | self-assignment changes nothing; otherwise as the move constructor |
| ComputeShader.Bind | src/Core/Graphics/ComputeShader.cpp:210-216 | a null pointer selects program 0, otherwise the shader's id |
| Framebuffer.AttachmentPartition | src/Core/Graphics/Framebuffer.cpp:117-127 | colour and depth entries together are the attachments; no colour entry is Depth; there is a depth spec exactly when some entry is Depth |
| Framebuffer.DrawBufferChoiceFacts | src/Core/Graphics/Framebuffer.cpp:178-196 | several colour attachments draw to attachment points 0..n-1; none selects GL_NONE; exactly one sets nothing |
| Framebuffer.Framebuffer.constructor | src/Core/Graphics/Framebuffer.cpp:42-48 | ids 0, size 0 by 0, no attachments |
| Framebuffer.Framebuffer.FromSpecification | src/Core/Graphics/Framebuffer.cpp:63-71 | a default framebuffer, then Create |
| Framebuffer.Framebuffer.Destroy | src/Core/Graphics/Framebuffer.cpp:86-99 | deletes the framebuffer, every colour attachment and the depth attachment |
| Framebuffer.Framebuffer.Build | src/Core/Graphics/Framebuffer.cpp:101-196 | deletes what was held; non-Depth entries become the colour specs in order, Depth the depth spec; one colour attachment per spec at point i with RGBA32F or else RGBA8; a depth attachment iff the depth spec is not None; draw buffers per the count |
| Framebuffer.Framebuffer.CreateAsWritten | src/Core/Graphics/Framebuffer.cpp:101-205 | builds as Build does, then unbinds before the completeness query, so the answer returned is the default framebuffer 0's |
| Framebuffer.Framebuffer.Create | src/Core/Graphics/Framebuffer.cpp:101-205 | builds as Build does and returns whether the new framebuffer itself is complete |
| Framebuffer.Framebuffer.GetColorAttachmentId | src/Core/Graphics/Framebuffer.cpp:78-84 | the stored id for an index in range, 0 otherwise |
| Framebuffer.Framebuffer.MoveAsWritten | src/Core/Graphics/Framebuffer.cpp:50-61 | id, depth attachment and specs move over and the other's id and depth fields are zeroed; the colour attachment ids stay with the other framebuffer |
| Framebuffer.Framebuffer.Move | src/Core/Graphics/Framebuffer.cpp:50-61 | as the source, with the colour attachment ids moved too |
| Framebuffer.Framebuffer.MoveAssignAsWritten | src/Core/Graphics/Framebuffer.cpp:215-233 | self-assignment changes nothing; otherwise destroys what it holds and moves as MoveAsWritten, keeping its own deleted colour ids |
| Framebuffer.Framebuffer.MoveAssign | src/Core/Graphics/Framebuffer.cpp:215-233 | as the source, with the colour attachment ids moved too |
| Framebuffer.Bind | src/Core/Graphics/Framebuffer.cpp:207-213 | a null pointer binds framebuffer 0, otherwise its id |
| Framebuffer.CreateAsWrittenReportsDefaultFramebuffer | src/Core/Graphics/Framebuffer.cpp:198-204 | with an incomplete new framebuffer and a complete default framebuffer, the source's Create reports success |
| Framebuffer.CreateReportsNewFramebuffer | src/Core/Graphics/Framebuffer.cpp:198-204 | on the same driver the corrected Create reports the failure |
| Framebuffer.MoveAsWrittenLosesColorAttachment | src/Core/Graphics/Framebuffer.cpp:50-61 | after the source's move, a framebuffer with texture 7 reports 0 and the moved-from one still owns 7 |
| Framebuffer.MoveKeepsColorAttachment | src/Core/Graphics/Framebuffer.cpp:50-61 | with the corrected move the texture stays reachable and is owned once |
| Framebuffer.MoveAssignAsWrittenKeepsDeletedId | src/Core/Graphics/Framebuffer.cpp:215-233 | after the source's move assignment the target reports a texture it has just deleted |
| Framebuffer.MoveAssignTransfersColorAttachment | src/Core/Graphics/Framebuffer.cpp:215-233 | with the corrected move assignment the target reports the moved texture |
| Input.EventStates | src/Core/Input.cpp:33-58 | events keep states RELEASE or PRESS; REPEAT presses a key but leaves a button; the same event twice equals once; a key is pressed afterwards exactly when the action was PRESS or REPEAT, or another non-release action on a pressed key |
| Input.Input.constructor | src/Core/Input.cpp:7-19 | every key and button released, cursor normal, mouse at (0,0), scroll 0 |
| Input.Input.OnKey | src/Core/Input.cpp:33-44 | only the given key changes, to its state after the event |
| Input.Input.OnMouseButton | src/Core/Input.cpp:48-58 | only the given button changes; only RELEASE and PRESS change it |
| Input.Input.OnMousePos | src/Core/Input.cpp:62-64 | the position is overwritten |
| Input.Input.OnMouseScroll | src/Core/Input.cpp:68-70 | the scroll delta is overwritten, not accumulated |
| Input.Input.Update | src/Core/Input.cpp:91-94 | the scroll delta is 0 and nothing else changes |
| Input.Input.SetMouseInputMode | src/Core/Input.cpp:73-89 | the mode is recorded; the GLFW cursor mode is CURSOR_NORMAL or CURSOR_DISABLED accordingly |
| Input.Input.IsKeyPressed | src/Core/Input.cpp:96-99 | the key's stored state is PRESS (no ensures; see Input.KeyEventQueries) |
| Input.Input.IsKeyReleased | src/Core/Input.cpp:101-104 | the key's stored state is RELEASE (no ensures) |
| Input.Input.IsMousePressed | src/Core/Input.cpp:106-109 | the button's stored state is PRESS (no ensures) |
| Input.Input.IsMouseReleased | src/Core/Input.cpp:111-114 | the button's stored state is RELEASE (no ensures) |
| Input.Input.GetMouseScrollDelta | src/Core/Input.cpp:116-119 | the last scroll delta of the frame (no ensures) |
| Input.QueriesExclusive | src/Core/Input.cpp:96-114 | in a valid state a key or button is pressed or released, never both |
| Input.KeyEventQueries | src/Core/Input.cpp:33-44 | after a key event the queries report PRESS/REPEAT as pressed, RELEASE as released, and other keys as before |

## Findings

| source | as written | input that shows it | evidently intended | confidence | as-written member | corrected member |
|---|---|---|---|---|---|---|
| src/Core/Graphics/ComputeShader.cpp:76-79 | the path constructor runs `Load` on an `m_id` that nothing initialises, and `Load` does not reset it on failure | a path that does not open: the id keeps whatever value the member held, and the destructor passes it to `glDeleteProgram` | id 0 after a failed load, as the default constructor (62-65) and the render shader's `Load` (Shader.cpp:116) have it | medium, not executed | ComputeShader.UninitialisedIdSurvivesFailedLoad | ComputeShader.ComputeShader.FromFile |
| src/Core/Graphics/Framebuffer.cpp:50-61 | the move constructor does not move `m_colorAttachments` | a framebuffer with one RGBA8 attachment (texture 7), moved: the new framebuffer's `GetColorAttachmentId(0)` is 0, and the moved-from framebuffer still deletes texture 7 when destroyed | the colour attachment ids move with the rest, and the moved-from framebuffer owns none | medium, not executed | Framebuffer.MoveAsWrittenLosesColorAttachment | Framebuffer.Framebuffer.Move |
| src/Core/Graphics/Framebuffer.cpp:215-233 | move assignment destroys its attachments but keeps their ids, and does not take the other's ids | assigning a framebuffer with texture 9 to one with texture 7: the target deletes 7 and still reports it; 9 is owned by the moved-from one | the target reports and owns the moved colour attachments | medium, not executed | Framebuffer.MoveAssignAsWrittenKeepsDeletedId | Framebuffer.Framebuffer.MoveAssign |
| src/Core/Graphics/Framebuffer.cpp:198-204 | `Create` binds framebuffer 0 again before `glCheckFramebufferStatus(GL_FRAMEBUFFER)`, so it reports the default framebuffer's completeness | a driver for which the new framebuffer is incomplete and the default one complete: `Create` returns true | the completeness of the framebuffer just built, queried while it is bound, as the comment at line 202 says | medium, not executed | Framebuffer.CreateAsWrittenReportsDefaultFramebuffer | Framebuffer.Framebuffer.Create |

## Left out

- **Effects not executed.** `SendInput`, `CreateProcessA` and the Win32 process handling in `OpenProcess` are foreign operating-system calls. Their requests are returned as effects instead.
- **Console output.** The `std::cout` messages are not modelled: the received-command log, the process-launch and connect-error messages of the controller, and the load, destroy and uniform-warning messages of both shaders. They change no state.
- **Serial port and threads.** This covers asio `open`, `set_option`, `read` and `write`, the listener `std::thread`, and the destructor, which does not join it. Only the loop body over a sequence of read outcomes and the bytes written are modelled. In particular, after connecting, disconnecting and connecting again, the source assigns a new `std::thread` over a listener thread that was never joined (src/ArduinoMacroPadController.cpp:280), which calls `std::terminate`; `ConnectToPort` still reports `listenerStarted` as true there.
- **Lua.** This covers the Lua state, `update_leds`, and the `set_led`/`get_led` closures. Their bodies and the LED setter are not part of this model. The LED layout is taken to be r, g, b.
- **JSON.** Parsing and pretty-printing of the configuration file are left out. The object is a map from command name to a record whose fields are present or missing and typed (a string, a list of numbers, a string), so ill-typed values lie outside this model; for them the library may throw or convert (a floating-point key code is converted, not rejected). Only a missing field gives the error result `Malformed`, where the source throws or its behaviour is undefined. Names are ordered by comparing characters by code point, as `std::string` comparison does for one-byte characters.
- **Floating-point code.** This covers:
  - `RenderImGui`;
  - `m_time`;
  - the viewport and camera matrices;
  - vertex positions and transforms;
  - `Camera.cpp`;
  - the application's fixed-timestep loop.
  Floats that are only copied (colours, uvs, thickness, uniform values, the mouse position and the scroll delta) are reals.
- **Other parts of the repository.** `ThreadPool` (concurrency) is left out. So are the thin GLFW/GL wrappers `Window.cpp`, `Texture.cpp`, `RenderCommand.cpp` and `OpenglApplication.cpp`, and the `UniformBuffer` and `ShaderStorageBuffer` classes. Texture objects are compared by identity.
- **Driver work.** Shader compilation and linking, `Shader::Bind`, `ComputeShader::Dispatch` and the buffer uploads issue GL calls only. Their results are parameters, such as the compiled id (0 meaning failure) and each generated id.
- **Moved-from state.** The strings, vectors and maps of a moved-from object are left valid but unspecified by C++. The contracts say nothing about them. The bodies set them empty.
- **Renderer2D.Renderer2D.constructor:** requires 1 ≤ `GL_MAX_TEXTURE_IMAGE_UNITS` ≤ 32. The source stores up to that many samplers in a 32-entry array and does not check the bound.
- **Framebuffer.Framebuffer.Create:** requires at most 16 colour attachments. With more, the source passes a count larger than its 16-entry draw-buffer table to `glDrawBuffers`.
- **Input.Input.OnKey:** requires the key code to index the key table. The source indexes `m_keys` unchecked. `Input.h`, which sizes the tables and defines the key codes, is not part of this model, so the table sizes are constructor parameters.
- **Input.Input.OnMouseButton:** requires the button code to index the button table, for the same reason.
- **Input.Input.SetMouseInputMode:** the model does not dereference the focus window. The source requires one to have been set with `SetFocusWindow`, and that registration of the callbacks is left out: the callbacks are the methods themselves.
- **ComputeShader.ComputeShader.SetUniform:** requires a non-texture value, because the compute shader has no texture setter.
