# A verified model of a TTS gateway and its digital-human servers

This project models, in Dafny, the core of a text-to-speech and
"digital human" video system. The model covers these parts:

- **The TTS gateway** (`tts-services/main.py`). It fills a registry of
  provider adapters at startup. It reports their health and their service
  listing. Its `/api/tts/generate` endpoint dispatches a request to one
  adapter and stores the audio it gets back.
- **The provider adapters.** These are Edge TTS, MiniMax, Eugenes, OpenAI,
  VoAI and ATEN AIVoice. The model keeps their configuration, their
  defaults and their clamps. It also keeps their request shaping and their
  reply and error mapping. For MiniMax, Eugenes and OpenAI it keeps the
  parameter tables of the simulation fallback, and for ATEN the
  synthesis-job poller and the 0.5 s rate limiter.
- **The stand-in TTS server** (`V/tts-extracted/simple_tts_server.py`). It
  serves silent WAV audio with a 44-byte RIFF header.
- **The remote video-task client** (`V/web-client/api_client.py`). It
  names uploads, maps submission results and runs the bounded poller
  `wait_for_completion`.
- **The web server of the React client** (`server/`). This covers the
  in-memory store, the file-backed user accounts and the periodic clean-up
  of never-favourited content. It also covers where generated videos are
  written and found, and the repair pass over stored paths.
- **The Express servers of the Vue front end and its backup**
  (`V/web-vue/server.js`, `V/tools/backup/server_fixed.js`). This covers
  the model catalogue with its create, delete and paged list. It also
  covers the copy of uploads into the shared folder, the video submission
  and the TTS endpoint.
- **The audio-suitability checkers.** These are the JavaScript and Python
  ffprobe/ffmpeg checkers and the ffmpeg-free heuristics of the backup
  server.
- **The client logic.** This covers the checks in the Streamlit client and
  the editor's video-task monitor. It also covers the video-generation
  poller, the gallery's filter and sort, the audio player's URL and retry
  logic, the model cards' labels, and the request shaping of the basic TTS
  panel.

The form of each part follows the source:

- Code that updates state in place is a `class`. This covers `MemStorage`,
  the adapters' initialisation, the ATEN rate limiter, the model databases,
  the audio player and the editor's monitor. Its methods state the whole new
  state in terms of the old one.
- A loop of the source is a `method` with a `while` loop. Examples are the
  escaper, the pollers, the sweeps, the stream and line scans and the
  quality notes. Each such method is proved equal to a specification
  function, and the properties of that function are proved as lemmas.
- Pure branching and mapping are functions with contracts.

Everything the code cannot decide alone is a parameter of the operation:

- the network, including HTTP replies, streamed chunks and remote task
  snapshots;
- the file system, through exists, mtime and unlink outcomes and the
  contents of the JSON files;
- the clock and uuid or random values;
- ffprobe and ffmpeg output;
- the waveform synthesiser.

Integers are unbounded. Durations and sizes that the source computes in
floating point are `real`. JavaScript's truncating `%`, stable
`Array.prototype.sort`, `slice` with negative bounds and `x || y` are
written out explicitly.

The model follows the code as written, also where a comment, a docstring
or a neighbouring component suggests other behaviour. Where the code
misbehaves (see "## Findings"), the operation follows the code, and the
corrected behaviour is a separate member with its own lemma. In
particular:

- `service3` is the Eugenes adapter, and the ATEN adapter is never
  registered (tts-services/main.py).
- The requested `format` is passed to the adapter unchanged and is not
  forced to wav (tts-services/main.py:190-195).
- An unrecognised remote task status keeps the poller going
  (V/web-client/api_client.py:209-210).
- An exception raised by ATEN's synthesis transport is not retried.
- The backup server's audio-check endpoints fail on every request that
  carries a path.
- The editor checks its text for emptiness without trimming, while the
  video-generation panel and the basic TTS panel trim it.
- In the editor, a code-10000 reply without data takes the error path.
- The clean-up statistics count a record as expired only when it is
  strictly older than 7 days, while the clean-up itself removes it at 7 days
  exactly (`FileCleanup.StatsBoundary`).

## Model

| member | source | states |
|---|---|---|
| TtsGateway.AdapterOf | tts-services/main.py:31-35 | exactly service1–service4 are bound to an adapter, and none of them to the ATEN adapter |
| TtsGateway.Assign | tts-services/main.py:86-101 | storing under an id keeps every earlier key in place and appends the id only when new |
| TtsGateway.AssignAll | tts-services/main.py:84-103 | after a run of stores every stored id and every earlier key is registered |
| TtsGateway.AssignAllDistinct | tts-services/main.py:75-103 | the registry never lists an id twice |
| TtsGateway.InfoRow | tts-services/main.py:146-166 | an adapter whose info probe raises is listed as "unhealthy" with fallback name and description and no languages or features; every other one is listed "healthy", with its own fields or the defaults |
| TtsGateway.HealthEntry | tts-services/main.py:127-131 | a raising probe is recorded as unhealthy with its message and never propagates; an entry is healthy only when the adapter reports "healthy" |
| TtsGateway.QuoteEach | tts-services/main.py:183 | quoting keeps one entry per service id |
| TtsGateway.FirstFailure | tts-services/main.py:84-109 | the first service, in registration order, whose initialisation raises; all before it initialised |
| TtsGateway.Gateway.constructor | tts-services/main.py:75 | the registry starts empty |
| TtsGateway.Gateway.Startup | tts-services/main.py:77-109 | startup stores and initialises service1 to service4 in order; the first initialisation that raises aborts it with that error, leaving its own id but none after it registered |
| TtsGateway.Gateway.HealthCheck | tts-services/main.py:121-139 | every registered adapter is probed in registry order; the overall status is "healthy" iff every probe reports "healthy", else "degraded" |
| TtsGateway.Gateway.ListServices | tts-services/main.py:141-168 | one row per registered adapter, in registry order |
| TtsGateway.Gateway.GenerateTts | tts-services/main.py:170-236 | a missing or unregistered service gives 400 naming the registered ids, and nothing is written |
| TtsGateway.Gateway.GetServiceInfo | tts-services/main.py:238-249 | an unknown id gives 404; a raising info probe 500 "獲取服務信息失敗: …"; otherwise the adapter's info |
| TtsGateway.UnknownServiceInvokesNoAdapter | tts-services/main.py:179-184 | for an unregistered id the outcome does not depend on any adapter, so none is invoked: a 400 and no file |
| TtsGateway.GenerateTtsSuccess | tts-services/main.py:197-228 | on adapter success the bytes are written to /app/data/audios/{filename} and returned unchanged as audio/{format}, the format passed through; headers X-Service, X-Filename, X-Audio-Path /data/audios/{filename} and X-Duration (default 0) |
| TtsGateway.GenerateTtsFailures | tts-services/main.py:189-236 | every failure of a registered service is a 500 with nothing saved: the adapter's own message when it reports failure, "TTS 生成失敗: …" when it raises or the write fails; audio is returned iff the adapter succeeds with audio and the write succeeds |
| EdgeTts.DefaultVoiceSupported | tts-services/services/edgetts_service.py:31-48 | the default voice of every language is one of the listed voices, and a Chinese one exactly for "zh" |
| EdgeTts.AudioOfEmpty | tts-services/services/edgetts_service.py:191-197 | the collected audio is empty exactly when no audio chunk carries data |
| EdgeTts.CollectAudio | tts-services/services/edgetts_service.py:191-194 | the loop collects the data of the audio chunks, in stream order, and nothing else |
| EdgeTts.DefaultVoice | tts-services/services/edgetts_service.py:131-138 | with no voice given, Chinese text uses zh-CN-XiaoxiaoNeural and every other language en-US-AriaNeural |
| EdgeTts.SsmlText | tts-services/services/edgetts_service.py:177-184 | the text is wrapped in a prosody element with the rate and pitch exactly when either differs from "+0%" / "+0Hz", otherwise sent as is |
| EdgeTts.ConvertToWav | tts-services/services/edgetts_service.py:210-261 | the conversion's WAV bytes are returned when it succeeds, the original MP3 bytes when it fails |
| EdgeTts.GenerateEdgeTts | tts-services/services/edgetts_service.py:171-208 | a streaming error is raised, an empty collection fails with "EdgeTTS 返回空音頻數據", otherwise the collected audio, converted to WAV exactly when the format is "wav" in any letter case |
| EdgeTts.EdgeTtsService.constructor | tts-services/services/edgetts_service.py:23-28 | a new adapter is uninitialised |
| EdgeTts.EdgeTtsService.Initialize | tts-services/services/edgetts_service.py:50-73 | the "Hello" self-test in en-US-AriaNeural initialises the adapter exactly when it yields audio; otherwise the error is raised and the state is unchanged |
| EdgeTts.EdgeTtsService.Health | tts-services/services/edgetts_service.py:75-83 | healthy iff initialised; reports twelve supported voices |
| EdgeTts.EdgeTtsService.GenerateSpeech | tts-services/services/edgetts_service.py:120-169 | fails with "語音生成失敗: 服務尚未初始化" when uninitialised; otherwise fails iff the stream raises or yields no audio, and on success reports the chosen voice, rate ("+0%" by default) and pitch ("+0Hz"), the audio, its byte count / 16000 as duration and 24000 Hz |
| Aten.EscapeSsmlText | tts-services/services/aten_service.py:271-284 | the escaper as written applies the five replacements in table order to the whole text, and no raw '"', "'", '<' or '>' is left |
| Aten.EscapeAsWritten | tts-services/services/aten_service.py:271-284 | the five replacements in table order leave no raw '"', "'", '<' or '>' in the text |
| Aten.EscapeAsWrittenRemovesMarkup | tts-services/services/aten_service.py:271-284 | after the five replacements no raw quote, apostrophe or angle bracket remains |
| Aten.UnescapePlain | tts-services/services/aten_service.py:271-284 | text without an ampersand decodes to itself under the XML 1.0 predefined entities |
| Aten.QuoteFirstStep | tts-services/services/aten_service.py:274 | the first replacement turns a '"' into "&quot;" |
| Aten.QuoteSecondStep | tts-services/services/aten_service.py:275 | the '&' replacement that follows rewrites "&quot;" into "&amp;quot;" |
| Aten.QuoteLaterSteps | tts-services/services/aten_service.py:276-278 | the last three replacements leave "&amp;quot;" unchanged |
| Aten.UnescapeDoubleEscaped | tts-services/services/aten_service.py:271-284 | "&amp;quot;" decodes to the literal "&quot;", not to '"' |
| Aten.EscapeAsWrittenDoubleEscapesQuote | tts-services/services/aten_service.py:273-282 | as written a '"' comes out as "&amp;quot;", which an XML reader decodes to "&quot;" rather than the '"' sent |
| Aten.EscapeSsml | tts-services/services/aten_service.py:271-284 | the escaper as intended (each character to its entity) leaves no raw quote, apostrophe or angle bracket |
| Aten.UnescapeEscapeChar | tts-services/services/aten_service.py:273-279 | decoding one character's entity followed by more text yields that character followed by the decoded rest |
| Aten.UnescapeEscapeSsml | tts-services/services/aten_service.py:271-284 | an XML reader decodes the intended escaper's output back to exactly the text escaped |
| Aten.BuildSsml | tts-services/services/aten_service.py:235-265 | the SSML starts with the speak, voice and prosody opening tags and ends with their closing tags, and the text between them, escaped as written, holds no raw quote, apostrophe or angle bracket |
| Aten.BuildSsmlDoubleEscapesQuote | tts-services/services/aten_service.py:239 | for a text `"` the prosody element decodes to the literal `&quot;`, not to the quote the caller sent |
| Aten.BuildSsmlIntended | tts-services/services/aten_service.py:235-265 | as intended: the same tags around the text escaped once per character |
| Aten.BuildSsmlCarriesText | tts-services/services/aten_service.py:239-262 | with the intended escaper the text between the prosody tags holds no '<' and decodes to the caller's text |
| Aten.ProsodyAttributesInRange | tts-services/services/aten_service.py:242-255 | the pitch, volume and rate attributes, read back as numbers, stay within [-2, 2] st, [-6, 6] dB and [0.8, 1.2] |
| Aten.SynthesisBody | tts-services/services/aten_service.py:295-306 | the body carries the SSML; silence_scale is sent exactly when the key is given, clamped to [0.8, 1.2] and unchanged inside that range; the custom-polyphone flag exactly when use_custom_poly is truthy |
| Aten.SynthesizeOutcome | tts-services/services/aten_service.py:286-331 | a submission succeeds iff the reply is 200 and carries a synthesis_id, returning it with the path; any other status fails with "合成請求失敗: {status} - {text}" |
| Aten.Classify | tts-services/services/aten_service.py:346-374 | a 200 "Success" with a non-empty path ends with that path; non-200 replies and "Waiting"/"Processing" are retried; a transport error fails with its message, "Success" without a path with "合成完成但未獲得音頻路徑", "Error" with "合成失敗: " and the message, else the error, else "未知錯誤", and any other status with "未知狀態: " and the status |
| Aten.ErrorDetail | tts-services/services/aten_service.py:356 | the detail is the message when truthy, else the error when truthy, else "未知錯誤" |
| Aten.ClockAdvances | tts-services/services/aten_service.py:343-374 | with a 2 s sleep before each retry the k-th check reads the clock at least 2k s after the start |
| Aten.WaitForSynthesis | tts-services/services/aten_service.py:333-380 | every answer is requested within the budget and all but the last were retries; the last decides success (its path) or failure (its message); otherwise the wait ends in the timeout message once the budget has passed; at most budget/2 + 1 answers are awaited; the result is the wait function's outcome from the first check |
| Aten.PendingJobTimesOut | tts-services/services/aten_service.py:342-376 | a job that stays pending ends the wait in "合成超時 (超過 {max} 秒)" |
| Aten.WaitReadsWithinBudget | tts-services/services/aten_service.py:333-342 | answers to checks past the budget never matter: with 2 s between checks no answer past the (max / 2)-th is awaited, at most 150 with the default 300 s |
| Aten.RateLimitWait | tts-services/services/aten_service.py:403-411 | the limiter waits exactly the rest of 0.5 s when less has passed, and not at all otherwise |
| Aten.ChooseVoice | tts-services/services/aten_service.py:189-195 | the configured voice when truthy, else the first loaded model's id, else the error "沒有可用的聲優模型" |
| Aten.AtenService.constructor | tts-services/services/aten_service.py:24-42 | a new adapter is uninitialised, without a token, with the default base URL, no models and a zero last-request time |
| Aten.AtenService.Initialize | tts-services/services/aten_service.py:44-70 | the token is ATEN_API_TOKEN else EUGENES_API_TOKEN and the base URL likewise; the adapter is initialised iff a token is set and the model list loads, and only then are the models replaced |
| Aten.AtenService.HealthStatus | tts-services/services/aten_service.py:72-81 | "healthy" iff initialised |
| Aten.AtenService.CheckRateLimit | tts-services/services/aten_service.py:403-413 | the last-request time becomes the reading after the wait and is at least 0.5 s after the previous one |
| Aten.AtenService.GenerateSpeech | tts-services/services/aten_service.py:151-233 | uninitialised fails with "語音生成失敗: 服務尚未初始化" without touching the limiter; a missing voice fails with the prefix; a rejected submission is returned as reported; after a submission the wait decides: a wait failure or the timeout fails with the prefix and its message, a transport error of the download with its reason, a non-200 download with "下載音頻失敗: {status} - {text}", and a 200 download of the waited path gives SpeechOk with the downloaded bytes, the synthesis id, 22050 Hz, service "eugenes", the voice and the SSML as written |
| Minimax.VoicesFor | tts-services/services/minimax_service.py:36-47 | the voice list of a language (the "zh" list for an unknown one) has three voices, the first of which is the default voice id |
| Minimax.EmotionConfigOf | tts-services/services/minimax_service.py:293-302 | an emotion outside the table falls back to the neutral row; every row's modifiers are positive |
| Minimax.SimulationParams | tts-services/services/minimax_service.py:283-324 | the simulated duration is at least 2 s and at least 0.15 s per character, the sample count is its floor at 24000 Hz, the base frequency is 220 Hz for "zh" and 200 Hz otherwise, scaled by the emotion's modifier, the modulation is 2 Hz for "sad" and 3 Hz otherwise, and the volume is clamped to 0.1..2.0 (unchanged inside it) |
| Minimax.SimulationGrowsWithText | tts-services/services/minimax_service.py:283-284 | the simulation never has fewer than 48000 samples and never shrinks as the text grows |
| Minimax.Peak | tts-services/services/minimax_service.py:327 | the peak magnitude of a buffer is non-negative |
| Minimax.PeakBounds | tts-services/services/minimax_service.py:327 | no sample exceeds the peak magnitude |
| Minimax.Declip | tts-services/services/minimax_service.py:327-329 | a buffer whose peak exceeds 0.95 is rescaled in place by 0.95 / peak, any other is left unchanged, and afterwards no sample exceeds 0.95 in magnitude |
| Minimax.ScaledWithinBound | tts-services/services/minimax_service.py:329 | a sample within the peak, rescaled by 0.95 / peak, stays within 0.95 |
| Minimax.CallMinimaxApi | tts-services/services/minimax_service.py:192-272 | the API's audio is returned exactly when the call returns 200 with status code 0 and an audio URL whose download returns 200; every other outcome, exceptions included, yields the simulated audio |
| Minimax.MinimaxService.constructor | tts-services/services/minimax_service.py:23-33 | a new adapter is uninitialised with no key and no group id |
| Minimax.MinimaxService.Initialize | tts-services/services/minimax_service.py:49-80 | the key and group id come from the environment, the URL and model from the environment with their defaults, and the adapter ends initialised with or without a key |
| Minimax.MinimaxService.Health | tts-services/services/minimax_service.py:82-91 | the shared health report of the simulating adapters, with the memory estimate "約 100MB" |
| Minimax.MinimaxService.GenerateSpeech | tts-services/services/minimax_service.py:133-184 | fails with "語音生成失敗: 服務尚未初始化" iff uninitialised; otherwise the voice id defaults to the language's first voice, speed to 1.0 and pitch to 0, the audio is the API's (with fallback) when a key is set and the simulation's otherwise, and the duration is the byte count over 2 × 24000 |
| Minimax.RealModeOverSimulatedAudio | tts-services/services/minimax_service.py:152-175 | with a key configured and a failed API call the result reports mode "real" while carrying the simulated audio |
| Eugenes.DefaultVoiceId | tts-services/services/eugenes_service.py:151-155 | with no voice id the first voice of the language's list is used, the "zh" list's for an unknown language |
| Eugenes.BaseFreq | tts-services/services/eugenes_service.py:254-259 | the base frequency of an unknown language is 200 Hz |
| Eugenes.EmotionFactor | tts-services/services/eugenes_service.py:262-272 | an emotion outside the table leaves the frequency unscaled; every factor is positive |
| Eugenes.SimulationParams | tts-services/services/eugenes_service.py:247-286 | the simulated duration is at least 2.5 s and at least 0.18 s per character, the sample count is its floor at 22050 Hz, the frequency is the language's base scaled by the emotion's factor, and the tone modulation applies iff the language starts with "zh" |
| Eugenes.SimulationGrowsWithText | tts-services/services/eugenes_service.py:247-248 | a longer text never gives fewer samples |
| Eugenes.EmotionModulation | tts-services/services/eugenes_service.py:308-341 | exactly the seven listed emotions have a modulation; "neutral" and unknown emotions have none |
| Eugenes.ApplyEmotionModulation | tts-services/services/eugenes_service.py:308-341 | in place: each sample of a known emotion's buffer is multiplied by 1 + depth · sin(2π · f · t) with that emotion's frequency and depth; for any other emotion the buffer is unchanged |
| Eugenes.EugenesService.constructor | tts-services/services/eugenes_service.py:23-31 | a new adapter is uninitialised with no key |
| Eugenes.EugenesService.Initialize | tts-services/services/eugenes_service.py:64-87 | the key comes from EUGENES_API_KEY and the adapter ends initialised with or without one |
| Eugenes.EugenesService.Health | tts-services/services/eugenes_service.py:89-99 | the shared health report of the simulating adapters, with the memory estimate "約 150MB" |
| Eugenes.EugenesService.GenerateSpeech | tts-services/services/eugenes_service.py:141-192 | fails with "語音生成失敗: 服務尚未初始化" iff uninitialised; otherwise the voice defaults to the language's first, emotion to "neutral", speed and energy to 1.0, pitch to 0.0, the audio is the simulation for the text, emotion and language, and the duration is the byte count over 2 × 22050 |
| Eugenes.EugenesService.CloneVoice | tts-services/services/eugenes_service.py:365-386 | cloning always succeeds with neutral Chinese simulated audio for the text and echoes the reference and the text |
| Eugenes.KeyDoesNotChangeAudio | tts-services/services/eugenes_service.py:162-167 | because the API call returns the simulation as well, two initialised adapters differing only in the key produce the same audio |
| Simulation.SimDuration | tts-services/services/minimax_service.py:283 | the simulated duration is the larger of the per-character length and the minimum, and at least each of them |
| Simulation.SimDurationMonotone | tts-services/services/minimax_service.py:283 | a longer text never gives a shorter simulated duration |
| Simulation.SampleCount | tts-services/services/minimax_service.py:284 | the sample count is the floor of duration × rate |
| Simulation.SampleCountMonotone | tts-services/services/minimax_service.py:284 | a longer duration never gives fewer samples |
| Simulation.BufferDuration | tts-services/services/minimax_service.py:164 | the reported duration times 2 × sample rate is the byte count |
| Simulation.Mode | tts-services/services/minimax_service.py:175 | the mode is "real" iff a key is configured, "simulation" otherwise |
| Simulation.Health | tts-services/services/eugenes_service.py:89-99 | the status is "healthy" iff initialised, else "unhealthy"; the report echoes the initialisation and the memory estimate, says whether a key is configured, and gives mode "real" iff one is |
| OpenAiTts.MaxCharsOf | tts-services/services/openai_service.py:45-48 | both models, and any unknown model, allow 4096 characters |
| OpenAiTts.TraitsOf | tts-services/services/openai_service.py:231-240 | an unknown voice takes alloy's characteristics |
| OpenAiTts.SimulationParams | tts-services/services/openai_service.py:224-243 | the simulated duration is at least 1.8 s and at least 0.12 s per character, the sample count is its floor at 24000 Hz, and the voice's characteristics are used |
| OpenAiTts.Compress | tts-services/services/openai_service.py:275 | the tanh soft clip keeps the length and leaves every sample strictly inside (-0.8, 0.8) |
| OpenAiTts.OpenAiService.constructor | tts-services/services/openai_service.py:24-32 | a new adapter is uninitialised with no key and no client |
| OpenAiTts.OpenAiService.Initialize | tts-services/services/openai_service.py:50-75 | the key comes from OPENAI_API_KEY, a client exists once a key is set and its construction succeeds, and the adapter ends initialised either way |
| OpenAiTts.OpenAiService.Health | tts-services/services/openai_service.py:77-87 | the shared health report of the simulating adapters, with the memory estimate "約 80MB" |
| OpenAiTts.OpenAiService.GenerateSpeech | tts-services/services/openai_service.py:126-176 | fails iff uninitialised or the text exceeds 4096 characters, with the matching message; otherwise the voice defaults to "alloy", the model to "tts-1", the speed to 1.0 clamped into 0.25..4.0, and the audio is the simulation for the text length and voice |
| OpenAiTts.PricePer1k | tts-services/services/openai_service.py:328-333 | 0.030 USD per thousand characters for tts-1-hd, 0.015 for every other model |
| OpenAiTts.Round4 | tts-services/services/openai_service.py:340 | `round(x, 4)` gives a multiple of 0.0001 within 0.00005 of the value, an exact tie going to the even multiple |
| OpenAiTts.EstimateCost | tts-services/services/openai_service.py:319-342 | the estimate echoes the character count and model, and the cost is a multiple of 0.0001 within 0.00005 of characters / 1000 × the model's price |
| RemoteTask.UploadFile | V/web-client/api_client.py:82-131 | a path is returned iff saving succeeds; it is /code/shared/{uuid} followed by the file's own extension, or .wav for audio and .mp4 otherwise when the name has none |
| RemoteTask.UploadFilesAndSubmit | V/web-client/api_client.py:25-80 | a failed upload gives "文件上傳失敗"; success iff both uploads succeed and the reply is 200 with code 10000, returning "任務提交成功" and the generated task code; failures carry no value, and a non-200 reply gives "HTTP錯誤: {status}" |
| RemoteTask.SubmitBodyFor | V/web-client/api_client.py:48-55 | the submission carries both paths and its task code, with chaofen 0, watermark_switch 0 and pn 1 |
| RemoteTask.CheckTaskStatus | V/web-client/api_client.py:133-158 | a query succeeds iff the reply is HTTP 200, returning "查詢成功" and the body; otherwise no body, with "HTTP錯誤: {status}" for a non-200 reply |
| RemoteTask.ReportOf | V/web-client/api_client.py:181-189 | the progress callback is invoked exactly for code-10000 replies |
| RemoteTask.Decide | V/web-client/api_client.py:174-207 | a failed query ends the wait with "狀態查詢失敗: …"; success exactly for status 2 with a result, as "http://{host}:8383{result}"; the wait goes on exactly for code-10000 replies whose status is neither 2 nor 3 |
| RemoteTask.ReportsUpTo | V/web-client/api_client.py:181-189 | at most one progress report per query |
| RemoteTask.WaitForCompletion | V/web-client/api_client.py:160-212 | between one and 600 queries are made; all but the last go on waiting; the last reply's decision is the result, or "任務超時" once all 600 go on waiting; with a callback every code-10000 reply is reported, in order |
| Voai.Entry | tts-services/services/voai_service.py:330-337 | a voice entry's id is "voai-" + speaker + "-" + style, with the speaker's language (default zh-TW) and gender (default unknown) |
| Voai.SpeakerEntries | tts-services/services/voai_service.py:329-337 | one entry per style of the speaker, in style order |
| Voai.AllEntriesPairs | tts-services/services/voai_service.py:323-338 | the voice list holds exactly one entry per (speaker, style) pair, at the pair's offset, and is as long as all the styles together |
| Voai.AllEntriesLength | tts-services/services/voai_service.py:327-338 | the voice list is as long as all the speakers' styles together |
| Voai.VoaiService.GetVoices | tts-services/services/voai_service.py:323-338 | the nested loop returns the voice list of the current speakers, one entry per (speaker, style) pair |
| Voai.BuildRequest | tts-services/services/voai_service.py:245-284 | texts over 200 characters or containing "[:" go to /TTS/generate-voice, others to /TTS/Speech with the model as "version"; speed, pitch shift, style weight and breath pause are clamped into 0.5..1.5, -5..5, 0..1 and 0..10 |
| Voai.NonAudioErrorAsWritten | tts-services/services/voai_service.py:302-309 | as written, every 200 reply that is not audio ends with "VoAI API 回應格式錯誤", whatever its body says |
| Voai.NonAudioMessageLost | tts-services/services/voai_service.py:304-309 | a JSON error body with a message does not get that message reported |
| Voai.NonAudioError | tts-services/services/voai_service.py:302-309 | as intended: a JSON body reports "VoAI API 錯誤: " with its message (or 未知錯誤); only a non-JSON body is a format error |
| Voai.FailureDetail | tts-services/services/voai_service.py:310-317 | a non-200 reply's detail is its JSON message, else "HTTP" and the status |
| Voai.HandleReply | tts-services/services/voai_service.py:294-321 | the audio bytes are returned iff the reply is 200 with an audio or wav content type; a 200 reply of any other type fails with "VoAI API 回應格式錯誤" whatever its body; a non-200 reply fails with "VoAI API 請求失敗: " and its detail; a raised request with its reason |
| Voai.VoaiService.constructor | tts-services/services/voai_service.py:22-38 | a new adapter is uninitialised, with no key and the three default speakers |
| Voai.VoaiService.Initialize | tts-services/services/voai_service.py:40-61 | a key already held is kept, otherwise VOAI_API_KEY is read; the adapter is initialised, and returns true, iff it ends with a key |
| Voai.VoaiService.Health | tts-services/services/voai_service.py:118-126 | healthy iff initialised; reports the speaker count |
| Voai.VoaiService.TextToSpeech | tts-services/services/voai_service.py:222-241 | an uninitialised adapter and an empty text fail before any request; otherwise the built request is sent and its reply handled |
| Voai.VoaiService.GenerateSpeech | tts-services/services/voai_service.py:168-220 | defaults voice 佑希, style 預設, model Neo, speed 1.0 and zero for the other knobs; fails with "語音生成失敗: " and the error iff text-to-speech fails; otherwise reports the audio, its byte count / 16000 as duration and 24000 Hz |
| Voai.VoaiService.CheckQuota | tts-services/services/voai_service.py:341-362 | without a key it reports "API Key 未設置" and sends nothing; with a key it sends one request and returns its JSON on 200, else "HTTP" and the status, or the exception |
| TestWav.NumSamples | V/tts-extracted/simple_tts_server.py:92-94 | the sample count is 2205 per character up to 100 characters and 220500 (ten seconds at 22050 Hz) beyond |
| TestWav.NumSamplesMonotone | V/tts-extracted/simple_tts_server.py:93-94 | a longer text never gives fewer samples; an empty text gives none |
| TestWav.LE | V/tts-extracted/simple_tts_server.py:99-110 | a little-endian field is exactly its width in bytes |
| TestWav.FromLEOfLE | V/tts-extracted/simple_tts_server.py:99-110 | reading a little-endian field back gives the value written |
| TestWav.Serialize | V/tts-extracted/simple_tts_server.py:97-110 | the header is 44 bytes |
| TestWav.ParseSerialize | V/tts-extracted/simple_tts_server.py:97-115 | whatever follows the header, parsing its 44 bytes recovers every field written, with the RIFF, WAVE, fmt and data tags in place |
| TestWav.TestHeader | V/tts-extracted/simple_tts_server.py:99-110 | the header written for the test audio has every field within its width |
| TestWav.TestHeaderConsistent | V/tts-extracted/simple_tts_server.py:99-110 | byte rate = sample rate × block align, block align = channels × bits / 8, data size = two bytes per sample, and chunk size = 36 + data size |
| TestWav.GenerateTestAudio | V/tts-extracted/simple_tts_server.py:85-115 | the header grown by successive extends, then the silence, is the test audio value |
| TestWav.TestAudio | V/tts-extracted/simple_tts_server.py:85-115 | the test audio is 44 bytes plus two per sample |
| TestWav.TestAudioWellFormed | V/tts-extracted/simple_tts_server.py:85-115 | the test audio's header parses back to the 22050 Hz mono 16-bit header, the RIFF size covers the file after its first eight bytes, the data size covers the samples, and every sample is silent |
| TestWav.TtsInvoke | V/tts-extracted/simple_tts_server.py:55-83 | as written, a text over 1000 characters yields a 500 whose detail wraps the 400; any other text is served as audio/wav with the test audio and its length as Content-Length |
| TestWav.TtsInvokeLongTextIsServerError | V/tts-extracted/simple_tts_server.py:64-83 | a 1001-character text reaches the client as a 500, not the intended 400 |
| TestWav.TtsInvokeChecked | V/tts-extracted/simple_tts_server.py:64-65 | with the length check outside the generic handler, the request fails iff the text exceeds 1000 characters, with 400 and the length message, and otherwise is served as before |
| FileCleanup.Select | server/file-cleanup.ts:83-108 | the records put in a group are exactly those of the database that belong to it, in their order |
| FileCleanup.SelectUnique | server/file-cleanup.ts:83-108 | a group drawn from a database with unique ids has unique ids |
| FileCleanup.FavoritedPartition | server/file-cleanup.ts:405-416 | every record is counted as favourited or unfavourited, so the two counts add up to the total |
| FileCleanup.RemoveFirstId | server/file-cleanup.ts:182-185 | the splice removes at most one record, only one with the given id, keeps every other record, and changes nothing when no record has that id |
| FileCleanup.RemoveFirstIdUnique | server/file-cleanup.ts:182-185 | in a list with unique ids the splice removes the record with that id entirely |
| FileCleanup.RemoveAll | server/file-cleanup.ts:144-186 | after the splice loop only retained records remain, and every retained record whose id is not scheduled for deletion remains |
| FileCleanup.RemoveAllUnique | server/file-cleanup.ts:144-186 | with unique ids no record scheduled for deletion survives the splice loop |
| FileCleanup.Overflow | server/file-cleanup.ts:115-130 | an over-full group loses exactly its excess over the limit, drawn from the group; a group within the limit loses nothing |
| FileCleanup.OverflowIsOldest | server/file-cleanup.ts:115-130 | the records cut from an over-full group are never newer than the ones that stay |
| FileCleanup.OverflowUnique | server/file-cleanup.ts:115-130 | the records cut from a group with unique ids have unique ids |
| FileCleanup.ToDeleteFacts | server/file-cleanup.ts:83-133 | everything scheduled for deletion is a record of the database that was never favourited |
| FileCleanup.SurvivorsFacts | server/file-cleanup.ts:83-189 | with unique ids the records written back have unique ids, and a record is written back iff it was retained and no record scheduled for deletion shares its id |
| FileCleanup.ProtectedNeverRemoved | server/file-cleanup.ts:88-91 | a favourited or once-favourited record is never removed |
| FileCleanup.UnfavoritedKeptIff | server/file-cleanup.ts:83-189 | a never-favourited record is written back iff it is younger than 7 days and not among the oldest records cut from its over-full audio or video group |
| FileCleanup.OverflowCap | server/file-cleanup.ts:115-130 | after the clean-up at most 100 never-favourited audio records and at most 50 never-favourited video records remain |
| FileCleanup.StatsBoundary | server/file-cleanup.ts:101-104 | a never-favourited record exactly 7 days old is not counted as expired by the statistics (strict >), yet the clean-up removes it (it keeps only strictly younger ones) |
| FileCleanup.StatsCountOnceFavorited | server/file-cleanup.ts:405-415 | an old record favourited once and since unfavourited is counted as an expired unfavourited record, yet the clean-up never removes it |
| FileCleanup.FilesOf | server/file-cleanup.ts:145-172 | a record's removal touches at most two files |
| FileCleanup.AudioFilesAreReferences | server/file-cleanup.ts:145-172 | the audios-directory files a record's removal deletes are exactly the files the TTS sweep counts as referenced by that record |
| FileCleanup.Classify | server/file-cleanup.ts:83-108 | the classification loop yields the retained, expired, never-favourited audio and never-favourited video groups |
| FileCleanup.ScheduleDeletion | server/file-cleanup.ts:83-133 | the retained records and the deletion list, expired records then the oldest excess audio then video |
| FileCleanup.SpliceAll | server/file-cleanup.ts:143-186 | the delete loop hands each record's files to the deleter in order and splices each record out of the retained list |
| FileCleanup.CleanupUnfavoritedContent | server/file-cleanup.ts:66-195 | an unreadable database changes nothing; with nothing to delete nothing is written; otherwise the files of the records scheduled for deletion are deleted and the survivors are written back |
| FileCleanup.StatCutoff | server/file-cleanup.ts:212-251 | the sweep stops at the first file whose stat throws, and every file before it was either skipped or stat-ed successfully |
| FileCleanup.Sweep | server/file-cleanup.ts:212-242 | a missing directory deletes nothing; otherwise a file is deleted iff it comes before the first failing stat, its name is selected, it is older than the lifetime, it is eligible and its unlink succeeds |
| FileCleanup.CleanupTempTtsFiles | server/file-cleanup.ts:198-252 | only TTS-named files of the audios directory more than 2 hours old are deleted, and only when the database is readable and no record references them; every such file reached before a failing stat is deleted when its unlink succeeds |
| FileCleanup.CleanupTempFiles | server/file-cleanup.ts:255-295 | only temp_ files of the audios directory more than an hour old are deleted, and every such file reached is deleted when its unlink succeeds |
| FileCleanup.CleanupTempDirectory | server/file-cleanup.ts:299-338 | every file of the temp directory is stat-ed, and exactly those `task_` files more than an hour old reached before a failing stat are deleted when their unlink succeeds |
| FileCleanup.CountTts | server/file-cleanup.ts:424-426 | the TTS file count never exceeds the file count |
| FileCleanup.CountStaleTts | server/file-cleanup.ts:429-432 | the expired TTS file count never exceeds the TTS file count |
| FileCleanup.CountContent | server/file-cleanup.ts:405-416 | the totals, favourited and unfavourited counts of the database, with unfavourited records more than 7 days old counted as expired; favourited + unfavourited = total |
| FileCleanup.CountTtsFiles | server/file-cleanup.ts:419-438 | TTS files are counted up to and including the first whose stat throws, and expired ones before it |
| FileCleanup.GetCleanupStats | server/file-cleanup.ts:394-453 | no statistics iff the database cannot be read; otherwise the content counts, and the file counts when the audios directory exists (zero otherwise) |
| Storage.OrNull | server/storage.ts:175 | `x \|\| null` keeps a non-empty string and turns an absent or empty one into null |
| Storage.OrDefault | server/storage.ts:176-177 | `x \|\| d` keeps a non-empty string and falls back to the default otherwise |
| Storage.ApplyModelLaws | server/storage.ts:192 | merging an empty update leaves a model unchanged, and merging the same update twice is the same as once |
| Storage.ApplyModelOverrides | server/storage.ts:192 | the update wins on every key it carries, id included; keys it does not carry keep the stored values |
| Storage.RemoveKey | server/storage.ts:198 | deleting a key from the insertion order removes exactly that key and keeps the order increasing |
| Storage.InOrder | server/storage.ts:162 | the values of a map listed in insertion order, one per key |
| Storage.FirstNamed | server/storage.ts:149-151 | the first user in insertion order with that name, or none iff no user has it |
| Storage.WithModel | server/storage.ts:209 | the filter keeps exactly the contents whose model id is that number, without duplicating any |
| Storage.TextModelIdNeverMatches | server/storage.ts:209 | content whose model id is stored as text is never found by the numeric lookup (strict equality) |
| Storage.SampleModels | server/storage.ts:42-139 | seven sample models, with ids 1 to 7, all ready |
| Storage.IndexedAppend | server/storage.ts:155-157 | handing out the next id keeps the map's keys in increasing insertion order below the counter |
| Storage.SeedMap | server/storage.ts:141 | the seeded map holds the seven samples under ids 1 to 7, in that insertion order, with 8 as the next id |
| Storage.MemStorage.constructor | server/storage.ts:30-40 | a fresh store has no users and no content, the user and content counters at 1, the seven samples under ids 1 to 7 and the model counter at 8 |
| Storage.MemStorage.GetUser | server/storage.ts:144-146 | the user with that id, or none iff there is none |
| Storage.MemStorage.GetUserByUsername | server/storage.ts:148-152 | none iff no user has the name; otherwise the first such user in insertion order |
| Storage.MemStorage.CreateUser | server/storage.ts:154-159 | the new user gets the next id, above every stored id, and is added; nothing else changes |
| Storage.MemStorage.GetModels | server/storage.ts:161-165 | a permutation of the stored models, newest first |
| Storage.MemStorage.GetModel | server/storage.ts:167-169 | the model with that id, or none iff there is none |
| Storage.MemStorage.CreateModel | server/storage.ts:171-186 | the new model gets a fresh id and the current time, with null for an absent or empty description, voice or character settings, "training" and "heygem" as default status and provider, and the given fields otherwise; nothing else changes |
| Storage.MemStorage.UpdateModel | server/storage.ts:188-195 | a missing id changes nothing and returns none; otherwise the merged model replaces the stored one and is returned |
| Storage.MemStorage.DeleteModel | server/storage.ts:197-199 | true iff the id was present; exactly that model is removed |
| Storage.MemStorage.GetGeneratedContent | server/storage.ts:201-205 | a permutation of the stored content, newest first |
| Storage.MemStorage.GetGeneratedContentByModel | server/storage.ts:207-211 | exactly the contents whose model id is that number, newest first |
| Storage.MemStorage.CreateGeneratedContent | server/storage.ts:213-227 | the new content gets a fresh id and the current time, status "generating" unless given, null for an absent or falsy model id, output path, emotion or duration, and the given fields otherwise; nothing else changes |
| Storage.MemStorage.UpdateGeneratedContent | server/storage.ts:229-236 | a missing id changes nothing and returns none; otherwise the merged content replaces the stored one and is returned |
| Storage.FirstCreatedModelId | server/storage.ts:30-41 | because the samples take ids 1 to 7, the first model created in a fresh store gets id 8 |
| UserService.UsersOf | server/user-service.ts:9-21 | a missing, blank or unparsable users file reads as an empty list |
| UserService.IndexOfName | server/user-service.ts:57 | the index of the first account with that name, or -1 iff no account has it |
| UserService.MaxId | server/user-service.ts:40 | the reduce gives a value no smaller than any id and than 0, and equal to 0 or to some account's id |
| UserService.Strip | server/user-service.ts:47-48 | the returned account has every field of the stored one except the password |
| UserService.CreateKeepsUnique | server/user-service.ts:40-43 | appending the new account keeps ids unique, and keeps names unique when the name was free |
| UserService.SpliceRemovesOnlyThatUser | server/user-service.ts:72 | the splice removes the account at that index and keeps the others in order; with unique names no account of that name remains |
| UserService.UserFile.constructor | server/user-service.ts:7 | the users file starts in the given state |
| UserService.UserFile.ReadUsers | server/user-service.ts:9-21 | the accounts of the file as read; a missing file is created empty |
| UserService.UserFile.FindUser | server/user-service.ts:27-30 | the first account with that name, or none iff no account has it |
| UserService.UserFile.CreateUser | server/user-service.ts:32-49 | a taken name fails with "User already exists" and writes nothing; otherwise the account gets id 1 + the largest id, above every stored id, with the hash as password, the list with it appended is written back, and it is returned without its password |
| UserService.UserFile.DeleteUser | server/user-service.ts:55-74 | an unknown name, an account without a password and a wrong password each fail with their message and write nothing; otherwise the account is spliced out and the rest written back |
| UserService.UserFile.GetAllUsers | server/user-service.ts:76-79 | every account, in file order, without its password |
| ServerConfig.GetVideoFilePath | server/config.ts:54-57 | the path ends with its task code followed by "-r.mp4" |
| ServerConfig.TaskCodeOf | server/config.ts:15 | a task code read back from a video file name contains no '/' |
| ServerConfig.DirOf | server/config.ts:54-57 | the directory part is a prefix of the path |
| ServerConfig.VideoFilePathRoundTrip | server/config.ts:54-57 | for a task code without '/', the built path gives back that task code and the chosen directory, "videos" when none or an empty one is given |
| ServerConfig.GetVideoAccessUrl | server/config.ts:60-62 | the URL is "/results/" followed by the file path |
| ServerConfig.AccessUrlRoundTrip | server/config.ts:60-62 | access URLs and the files they serve correspond one to one |
| ServerConfig.FirstExisting | server/config.ts:70-81 | the result is present iff some alternative directory holds the file, and then it is the first such directory's "{dir}/{name}" |
| ServerConfig.FailedCheckIsSkipped | server/config.ts:72-78 | a directory whose existence check throws is passed over as if it were not in the list |
| ServerConfig.FindVideoFile | server/config.ts:65-82 | the loop returns the first alternative directory, in order, where "{taskCode}-r.mp4" exists, or null |
| ServerConfig.DefaultVideoIsFound | server/config.ts:54-82 | a video written to the default directory is found there, under the path getVideoFilePath gives for it |
| VideoPathUtils.ErrorText | server/video-path-utils.ts:88 | the error reported is the exception's message, or "未知錯誤" when it has none |
| VideoPathUtils.AudioLookup | server/video-path-utils.ts:6-15 | when every existence check answers, the lookup finds the first of audios, voice, uploads holding the file; a check that throws ends the lookup with that error |
| VideoPathUtils.FindAudioFile | server/video-path-utils.ts:6-15 | the loop returns the first alternative audio directory holding the file, as "{dir}/{name}", or null, and passes on a throwing check |
| VideoPathUtils.FixVideo | server/video-path-utils.ts:34-48 | a video record with a task code and no output path whose file is found gets that file's access URL, status "completed", progress 100 and the current time, and is reported as changed; every other record is left unchanged and not reported |
| VideoPathUtils.FixAudio | server/video-path-utils.ts:51-70 | only an audio record whose output path points into an uploads or voice folder can change, and then only its output path and update time; it is reported as changed iff it changed; a failing lookup is passed on |
| VideoPathUtils.FixItem | server/video-path-utils.ts:30-74 | a record is reported as updated iff it changed |
| VideoPathUtils.FixAll | server/video-path-utils.ts:30-75 | the repaired list has as many records as before, and the count never exceeds it |
| VideoPathUtils.Changed | server/video-path-utils.ts:72-74 | the count of differing positions is zero iff the lists are equal |
| VideoPathUtils.CountIsChangedRecords | server/video-path-utils.ts:72-74 | updatedCount is exactly the number of records the pass changed |
| VideoPathUtils.FixAudioIdempotent | server/video-path-utils.ts:51-70 | a rewritten audio path names the same file, which is found in the same place, so a second repair leaves it alone |
| VideoPathUtils.FixItemIdempotent | server/video-path-utils.ts:30-74 | a repaired record is left alone by a second repair with the same file system |
| VideoPathUtils.OldLocationHasName | server/video-path-utils.ts:55-56 | a path pointing into an uploads or voice folder has a non-empty base name |
| VideoPathUtils.FoundDir | server/video-path-utils.ts:11 | a successful audio lookup answers "{dir}/{name}" |
| VideoPathUtils.FixAllIdempotent | server/video-path-utils.ts:18-90 | a second pass over the repaired records changes nothing and counts nothing |
| VideoPathUtils.FixRecords | server/video-path-utils.ts:30-75 | the loop repairs the records in place, front to back, and counts the changed ones, as the repair of the whole list does; a lookup error ends it with that error |
| VideoPathUtils.FixAllErrorPersists | server/video-path-utils.ts:24-89 | once a prefix of the records fails, the whole pass fails with the same error |
| VideoPathUtils.VideosDatabase.constructor | server/video-path-utils.ts:20 | the database file starts in the given state |
| VideoPathUtils.VideosDatabase.FixVideoPaths | server/video-path-utils.ts:18-90 | a read, lookup or write error fails with its message and leaves the file as it was; with no record changed nothing is written and the count is 0; otherwise the repaired records are written and their count returned |
| WebVueServer.OrNull | V/web-vue/server.js:289-290 | `x \|\| null` keeps a path exactly when it is present and non-empty, and otherwise stores null |
| WebVueServer.NewModel | V/web-vue/server.js:284-295 | a new entry carries the trimmed name, the fresh id, status "active", equal creation and update times, and a path only when one was given non-empty |
| WebVueServer.AppendKeepsNamesDistinct | V/web-vue/server.js:275-298 | appending an entry whose name is not taken keeps the catalogue's names distinct |
| WebVueServer.IndexOfId | V/web-vue/server.js:347 | `findIndex` answers -1 exactly when no entry has the id, and otherwise the first index whose entry has it |
| WebVueServer.SpliceRemovesExactlyThatModel | V/web-vue/server.js:347-358 | splicing out the found index leaves no entry with that id, keeps every other entry and keeps ids distinct |
| WebVueServer.FilterModels | V/web-vue/server.js:398-415 | an entry is kept exactly when it is active, its lower-cased name contains the trimmed lower-cased name filter and its type equals the trimmed type filter (blank filters match all) |
| WebVueServer.ListModelsSound | V/web-vue/server.js:384-434 | every listed entry is in the catalogue and passes the filter, the list is newest first, holds at most a page of entries, and the total counts every match |
| WebVueServer.ListModels | V/web-vue/server.js:384-434 | the listing reports page 1 and page size 20 by default and counts every entry passing the filter, never more than are stored |
| WebVueServer.ListModelsComplete | V/web-vue/server.js:398-423 | every entry that passes the filter appears on some page |
| WebVueServer.ListModelsIsPage | V/web-vue/server.js:386-423 | the list is the page window of the matches sorted newest first, with page 1 and page size 20 by default |
| WebVueServer.ModelsDatabase.constructor | V/web-vue/server.js:52-66 | the database starts from the models file as read, or unreadable |
| WebVueServer.ModelsDatabase.CreateModel | V/web-vue/server.js:247-322 | a blank name gives 400, an unreadable file 500, a taken trimmed name 400, a failed write 500, and otherwise the new entry is appended and returned; on every failure the file is unchanged |
| WebVueServer.ModelsDatabase.DeleteModel | V/web-vue/server.js:326-380 | an empty id gives 400, an unreadable file 500, an unknown id 404, a failed write 500, and otherwise exactly the entry at the found index is removed; on every failure the file is unchanged |
| WebVueServer.ModelsDatabase.ListModelsHandler | V/web-vue/server.js:384-396 | an unreadable file gives 500, and otherwise the reply is the filtered, sorted page listing |
| WebVueServer.IndexOfName | V/web-vue/server.js:275 | the lookup finds an entry exactly when the trimmed name is taken, and the entry it finds carries that name |
| WebVueServer.CopyTarget | V/web-vue/server.js:124-129 | the copy lands under the shared voice or face2face directory with the source file's own base name |
| WebVueServer.CopyFileToShared | V/web-vue/server.js:122-140 | a path is returned exactly when the copy succeeds, and null otherwise |
| WebVueServer.SharedPathIgnoresType | V/web-vue/server.js:133-135 | both branches of the returned path are the same `/code/data/<file>`, so the file kind does not change it, and it ends with the source's base name |
| WebVueServer.OrNumber | V/web-vue/server.js:181-183 | `x \|\| d` keeps a number unless it is missing or zero, when the default is used |
| WebVueServer.SubmitRequest | V/web-vue/server.js:177-184 | the request carries the paths and the fresh task code, defaults chaofen and watermark to 0 and pn to 1, and pn is never 0 |
| WebVueServer.SubmitVideo | V/web-vue/server.js:172-210 | the submission succeeds with its task code exactly when face2face answers code 10000; another code gives 400 with face2face's message or "任務提交失敗"; a failed call gives 500 "服務器錯誤" |
| WebVueServer.TtsBody | V/web-vue/server.js:547-562 | the body carries the trimmed text, and the reference pair exactly when both the reference audio and its text are given non-empty |
| WebVueServer.TtsFileName | V/web-vue/server.js:576 | the saved name `tts_<ms>_<uuid8>.wav` has 17 characters beside the timestamp |
| WebVueServer.TtsFileNamesDiffer | V/web-vue/server.js:576 | two saved names coincide only for the same millisecond and the same uuid prefix |
| WebVueServer.TtsGenerate | V/web-vue/server.js:535-620 | blank text gives 400 "文本不能為空"; a success means the service replied, the file name is fresh, the URL is under /uploads/ and the size is the reply's length |
| WebVueServer.TtsSavedIffAudio | V/web-vue/server.js:573-600 | a reply is saved exactly when its content type starts with "audio/" |
| Paging.RelativeIndex | V/web-vue/server.js:420-423 | a slice bound is clamped into the list, a negative one counting from the end |
| Paging.JsSlice | V/web-vue/server.js:423 | `slice` never lengthens the list and returns only its elements |
| Paging.PageWindow | V/web-vue/server.js:420-423 | for a page of at least 1 the page is the clamped window of the list and holds at most a page size of entries |
| Paging.PagesAdjoin | V/web-vue/server.js:420-423 | two consecutive pages are adjacent windows of the list |
| Paging.PageOfPosition | V/web-vue/server.js:420-421 | every position falls inside the window of page `k / size + 1` |
| Paging.InSlice | V/web-vue/server.js:423 | an element whose position lies between the slice bounds is in the slice |
| Paging.ItemInWindow | V/web-vue/server.js:420-423 | an element inside a page's window is on that page |
| Paging.ItemOnItsPage | V/web-vue/server.js:420-423 | the element at position k is on page `k / size + 1` |
| Paging.ItemOnSomePage | V/web-vue/server.js:420-423 | every element of the list is on some page of positive number |
| Paging.PageZeroIsEmpty | V/web-vue/server.js:420-423 | page 0 is always empty, since its window ends at offset 0 |
| Paging.NegativePageCountsFromEnd | V/web-vue/server.js:420-423 | page -1 returns the window two to one page sizes before the end, as `slice` counts negative bounds from the end |
| Paging.SortedPage | V/web-vue/server.js:418-423 | a page of a sorted list is sorted |
| ServerFixed.LoadModels | V/tools/backup/server_fixed.js:79-87 | the stored entries are returned, or none when the file cannot be read or parsed |
| ServerFixed.ActualVideoPath | V/tools/backup/server_fixed.js:143-147 | a shared `/code/data/` path is reduced to a bare file name, any other path is kept as given |
| ServerFixed.NewModels | V/tools/backup/server_fixed.js:165-217 | the face model is always made, the voice model exactly when audio was found and the guess is not low-confidence on a too-small file, both with the same time, status "ready", path, audio verdict and size |
| ServerFixed.VoiceIffAudio | V/tools/backup/server_fixed.js:193 | with the verdicts the audio heuristics can give, a voice model is made exactly when audio was found |
| ServerFixed.FilterByName | V/tools/backup/server_fixed.js:255-260 | an entry is kept exactly when its lower-cased name contains the lower-cased filter (a blank filter keeps all) |
| ServerFixed.ListModelsSound | V/tools/backup/server_fixed.js:245-280 | every listed entry is stored and matches the name, the list is newest first and at most a page long, and the total counts every match |
| ServerFixed.ListModels | V/tools/backup/server_fixed.js:245-280 | the listing reports page 1 and page size 20 by default and counts every entry matching the name, never more than are stored |
| ServerFixed.IndexOfId | V/tools/backup/server_fixed.js:301 | `findIndex` answers -1 exactly when no entry has the id, and otherwise the first index whose entry has it |
| ServerFixed.DeleteTarget | V/tools/backup/server_fixed.js:143-150 | as intended: the delete removes the same upload the create checked |
| ServerFixed.DeleteTargetAsWritten | V/tools/backup/server_fixed.js:314 | the file a delete removes is the stored path joined under the upload folder |
| ServerFixed.SharedPathUploadNotRemoved | V/tools/backup/server_fixed.js:311-316 | for every model made from a shared `/code/data/` path the delete as written targets another file than the upload the create checked, while the corrected target is that upload |
| ServerFixed.BackupStore.constructor | V/tools/backup/server_fixed.js:79-87 | the store starts from the models file as read and the uploads present |
| ServerFixed.BackupStore.CreateModel | V/tools/backup/server_fixed.js:129-240 | a missing name or path gives 400, a missing upload 400 naming it, a failed stat 500; otherwise one or two models are made, returned with their count, and appended when the save succeeds; the uploads never change |
| ServerFixed.BackupStore.DeleteModel | V/tools/backup/server_fixed.js:294-330 | an unknown id gives 404 and changes nothing; otherwise the entry is spliced out (written back when the save succeeds) and `uploads/{videoPath}` is unlinked when present and the unlink succeeds, so for a shared-path model the upload the create checked stays |
| ServerFixed.BackupStore.ListModelsHandler | V/tools/backup/server_fixed.js:245-283 | the reply is the page listing of the loaded entries |
| ServerFixed.AudioEndpointsAlwaysFail | V/tools/backup/server_fixed.js:345-404 | as written, both audio-check endpoints fail on every request, with 500 whenever a path is given, because their checkers are never imported |
| ServerFixed.AudioCheckAsWritten | V/tools/backup/server_fixed.js:345-376 | as written: a missing path gives 400, any other request the 500 of the missing checker |
| ServerFixed.QuickCheckAsWritten | V/tools/backup/server_fixed.js:378-404 | as written: a missing path gives 400, any other request the 500 of the missing quick checker |
| ServerFixed.AudioEndpoint | V/tools/backup/server_fixed.js:345-375 | a missing path gives 400 "請提供文件路徑"; otherwise the checker's verdict on the upload is returned, and its error becomes a 500 with the endpoint's prefix |
| ServerFixed.AudioCheck | V/tools/backup/server_fixed.js:345-375 | the voice-cloning check succeeds exactly when a path is given and the checker accepts that upload |
| ServerFixed.QuickCheck | V/tools/backup/server_fixed.js:378-404 | the quick check succeeds exactly when a path is given and the quick checker accepts that upload |
| SimpleAudioCheck.Latin1 | V/tools/backup/simple_audio_check.js:67 | `toString('binary')` maps each byte to the character of the same code, one for one |
| SimpleAudioCheck.HeaderText | V/tools/backup/simple_audio_check.js:54-67 | the searched text always has the 1024 characters of the zero-filled header buffer |
| SimpleAudioCheck.HintCount | V/tools/backup/simple_audio_check.js:77-82 | the hint count never exceeds the number of signatures |
| SimpleAudioCheck.CountAudioHints | V/tools/backup/simple_audio_check.js:68-82 | the loop counts exactly the signatures the header text contains, at most six |
| SimpleAudioCheck.SizeHint | V/tools/backup/simple_audio_check.js:85-94 | the size class is "too_small" below 100 KiB, "small" below 1 MiB, "medium" below 10 MiB and "large" from there, each exactly on its range |
| SimpleAudioCheck.Check | V/tools/backup/simple_audio_check.js:13-138 | the step-by-step check gives the verdict of the decision chain on the counted hints |
| SimpleAudioCheck.VerdictByFileKind | V/tools/backup/simple_audio_check.js:15-64 | a missing file, an unsupported extension and an empty header have no audio; an audio-format file has audio exactly when it is at least 1 KiB, then with high confidence |
| SimpleAudioCheck.Verdict | V/tools/backup/simple_audio_check.js:13-135 | audio is reported only for a present file whose size was read, and then only for an audio format of at least 1 KiB or a supported video with a readable, non-empty header; a missing file is "文件不存在" |
| SimpleAudioCheck.VideoVerdictByHints | V/tools/backup/simple_audio_check.js:97-130 | a video with hints has audio, "high" for two or more and "medium" for one; without hints it has audio exactly from 100 KiB, "medium" from 10 MiB and "low" in between |
| SimpleAudioCheck.VideoVerdict | V/tools/backup/simple_audio_check.js:97-130 | a video has audio exactly when its header holds a hint or it is at least 100 KiB, and then carries its size class; a confidence is always given |
| SimpleAudioCheck.LowConfidenceIsNeverTooSmall | V/tools/backup/simple_audio_check.js:107-130 | a "low" verdict always has audio and a size class other than "too_small" |
| SimpleAudioCheck.Round | V/tools/backup/simple_audio_check.js:163 | `Math.round` gives the integer within half of the value, halves rounded up |
| SimpleAudioCheck.QualityBySize | V/tools/backup/simple_audio_check.js:143-167 | the quality is "low" below 400 000 bytes, "medium" below 1 600 000 and "high" from there, and the bit rate is the size over 12 500, rounded |
| SimpleAudioCheck.EstimateAudioQuality | V/tools/backup/simple_audio_check.js:143-167 | a stat failure is reported as the error with its message; otherwise the file size, the assumed 10 s, a class of low, medium or high and a non-negative bit rate |
| AudioCheckerJs.ParseFloat | V/web-vue/audio_checker.js:75 | `parseFloat` yields a number exactly when a number starts the text, and NaN otherwise |
| AudioCheckerJs.InfoOf | V/web-vue/audio_checker.js:74-83 | the codec is the stream's when present and non-empty, else "unknown"; an absent sample rate or channel count reads as 0 |
| AudioCheckerJs.ExtractAudioInfo | V/web-vue/audio_checker.js:31-90 | the probe resolves exactly when ffprobe exits with 0, prints non-blank output and that output parses; it then gives the first audio stream's facts, or "沒有找到音頻流" when there is none |
| AudioCheckerJs.MatchFrom | V/web-vue/audio_checker.js:119 | the regex search finds the leftmost tag at which `mean_volume:\s*([-\d.]+)\s*dB` matches, and none when no tag matches |
| AudioCheckerJs.FirstCapture | V/web-vue/audio_checker.js:116-125 | the scan finds no volume exactly when no line of the log has a match |
| AudioCheckerJs.CheckAudioVolume | V/web-vue/audio_checker.js:95-129 | the loop over the log's lines resolves with the volume of the first matching line, "無法解析音量信息" when none matches, and "音量檢測失敗" when ffmpeg cannot be spawned |
| AudioCheckerJs.ReadsLoggedVolume | V/web-vue/audio_checker.js:114-126 | the line ffmpeg writes for a mean volume printed to one decimal reads back as that volume |
| AudioCheckerJs.OneLineLog | V/web-vue/audio_checker.js:116-121 | a one-line log with a match gives that line's captured volume |
| AudioCheckerJs.LayoutCapture | V/web-vue/audio_checker.js:118-121 | a `mean_volume: <x> dB` line captures exactly the number `x` it shows |
| AudioCheckerJs.BuildQualityNotes | V/web-vue/audio_checker.js:211-235 | the pushes give the sample-rate note, then the duration note, then a volume note only for a measured volume above -30 dB |
| AudioCheckerJs.AcceptedExactly | V/web-vue/audio_checker.js:134-254 | a file is accepted exactly when it exists, ffmpeg runs, the probe finds audio of at least 3 s at 8000 Hz or more with channels, and the volume is not a number below -40 dB; a missing file and a missing ffmpeg give their reasons |
| AudioCheckerJs.Judge | V/web-vue/audio_checker.js:166-254 | after the probe a file is accepted exactly when it lasts 3 s, has 8000 Hz or more, has channels and its volume is not a number below -40 dB; the details always carry the facts, an accepted file the suitable message and notes, and the volume is null exactly when its measurement failed |
| AudioCheckerJs.CanUseForVoiceCloning | V/web-vue/audio_checker.js:134-254 | a missing file, a missing ffmpeg, a failed probe ("檢測過程出錯: …") and a probe without audio each give their reason without details; a probed stream is judged with the measured volume |
| AudioCheckerJs.VolumeFailureNeverRejects | V/web-vue/audio_checker.js:193-208 | a failed volume measurement gives the same verdict as a failed ffmpeg spawn, and acceptance then rests on the probe alone |
| AudioCheckerJs.JudgeIgnoresVolumeError | V/web-vue/audio_checker.js:196-197 | the verdict does not depend on the volume error's message |
| AudioCheckerJs.AcceptedNotes | V/web-vue/audio_checker.js:211-245 | an accepted file carries one sample-rate note, one duration note and a third note exactly when its measured volume is above -30 dB |
| AudioCheckerJs.QuickCheckAgrees | V/web-vue/audio_checker.js:259-292 | the quick check reports audio exactly when the probe finds a stream and usable audio exactly when it lasts 3 s, so every file the full check accepts passes it |
| AudioCheckerJs.QuickAudioCheck | V/web-vue/audio_checker.js:259-292 | audio is reported exactly when the probe finds a stream and usable audio exactly when it lasts 3 s, then with its duration and sample rate; without audio no usability is given |
| AudioCheckerPy.InfoOf | V/tools/audio-testing/audio_checker.py:49-58 | the codec defaults to "unknown" only when absent, and an absent sample rate or channel count reads as 0 |
| AudioCheckerPy.ProbeOutcome | V/tools/audio-testing/audio_checker.py:22-65 | the probe succeeds exactly when ffprobe prints non-blank, parsable output holding an audio stream, and then gives the first audio stream's facts |
| AudioCheckerPy.AudioStreamsSnoc | V/tools/audio-testing/audio_checker.py:40-43 | appending a stream extends the audio streams by it exactly when it is audio |
| AudioCheckerPy.CollectAudioStreams | V/tools/audio-testing/audio_checker.py:40-43 | the loop collects exactly the audio streams, in order |
| AudioCheckerPy.ExtractAudioInfo | V/tools/audio-testing/audio_checker.py:22-65 | the step-by-step probe gives the outcome the probe's decision chain describes |
| AudioCheckerPy.LineVolumes | V/tools/audio-testing/audio_checker.py:81-88 | each line of the log is read on its own, one result per line |
| AudioCheckerPy.FirstVolume | V/tools/audio-testing/audio_checker.py:81-90 | the scan finds no volume exactly when no line gives one, and otherwise a volume some line gives |
| AudioCheckerPy.CheckAudioVolume | V/tools/audio-testing/audio_checker.py:67-93 | the loop returns the first line's volume that parses, skipping lines that do not, "無法檢測音量" when none does, and the raised error otherwise |
| AudioCheckerPy.ReadsLoggedVolume | V/tools/audio-testing/audio_checker.py:81-86 | the line ffmpeg writes for a mean volume printed to one decimal reads back as that volume |
| AudioCheckerPy.LayoutVolume | V/tools/audio-testing/audio_checker.py:85 | the two splits and the strip cut exactly the printed number out of a `mean_volume: <x> dB` line |
| AudioCheckerPy.OneLineLog | V/tools/audio-testing/audio_checker.py:81-86 | a one-line log with a volume gives that volume |
| AudioCheckerPy.BuildQualityNotes | V/tools/audio-testing/audio_checker.py:148-168 | the appends give the sample-rate note, then the duration note, then a volume note only for a measured volume above -30 dB |
| AudioCheckerPy.AcceptedExactly | V/tools/audio-testing/audio_checker.py:95-177 | a file is accepted exactly when it exists, ffmpeg runs, the probe finds audio of at least 3 s at 8000 Hz or more with channels, and the volume is not measured below -40 dB |
| AudioCheckerPy.Judge | V/tools/audio-testing/audio_checker.py:121-177 | after the probe a file is accepted exactly when it lasts 3 s, has 8000 Hz or more, has channels and its volume is not measured below -40 dB; an accepted file carries its facts, the volume or None, and the quality notes |
| AudioCheckerPy.CanUseForVoiceCloning | V/tools/audio-testing/audio_checker.py:95-177 | a missing file, a missing ffmpeg and a failed probe each give their reason; a probed stream is judged with the measured volume |
| AudioCheckerPy.ToJsVolume | V/tools/audio-testing/audio_checker.py:138-145 | a failed Python measurement is a failed JavaScript one and a measured volume is a number |
| AudioCheckerPy.ToJsField | V/tools/audio-testing/audio_checker.py:175 | Python's `volume_db` is always present in the details, as a number or null |
| AudioCheckerPy.NotesAgree | V/tools/audio-testing/audio_checker.py:148-168 | the Python and JavaScript checkers give an accepted file the same quality notes |
| AudioCheckerPy.JudgesAgree | V/tools/audio-testing/audio_checker.py:121-177 | on the same facts and volume both checkers accept the same files with the same notes, and reject a low sample rate or missing channels with the same reason |
| AudioCheckerPy.ProbesAgree | V/tools/audio-testing/audio_checker.py:34-58 | both probes read the same facts from the same ffprobe output, except that only JavaScript replaces an empty codec name by "unknown" |
| AudioCheckerPy.CheckersAgree | V/tools/audio-testing/audio_checker.py:95-177 | on the same ffprobe output and the same logged mean volume, the Python and JavaScript checkers accept the same files |
| AudioCheckerPy.LoggedVolumesAgree | V/tools/audio-testing/audio_checker.py:81-86 | both checkers read the same volume from the line ffmpeg writes |
| AudioCheckerPy.JudgeIgnoresCodec | V/tools/audio-testing/audio_checker.py:121-134 | the acceptance decision does not read the codec |
| AudioProbe.AudioStreams | V/tools/audio-testing/audio_checker.py:40-49 | the audio streams are exactly the streams of type "audio", none exactly when no stream is audio, and the first is the earliest audio stream |
| AudioProbe.FirstTag | V/web-vue/audio_checker.js:118-119 | in the line ffmpeg writes, the tag after the log prefix is the first `mean_volume:` of the line |
| Editor.AudioRequestError | client/src/pages/editor.tsx:366-383 | the audio request is sent iff the text is non-empty or the voice source is not basic TTS, and a reference audio is present when cloning; otherwise the toast names the missing input |
| Editor.VideoRequestError | client/src/pages/editor.tsx:406-432 | without a character model the request is refused with "請選擇人物模特"; with one, the same checks as the audio request decide |
| Editor.BlankTextIsSent | client/src/pages/editor.tsx:367 | the text check is for emptiness only: a non-empty text of blanks is sent |
| Editor.VideoNeedsCharacter | client/src/pages/editor.tsx:406-432 | a video request is sent exactly when a character model is chosen and the audio checks pass |
| Editor.AudioTick | client/src/pages/editor.tsx:162-186 | a tick stops the bar exactly when it is already at 100 or more, and otherwise raises it by 10 |
| Editor.AudioProgressClimbs | client/src/pages/editor.tsx:159-186 | from 0 the bar climbs by 10 per tick and the updater stops on the tick after it reaches 100, the eleventh |
| Editor.AudioResult | client/src/pages/editor.tsx:168-181 | the audio is shown iff the reply's audioUrl is present and non-empty, with the reply's url and id; otherwise the format-error toast |
| Editor.DigitsEnd | client/src/pages/editor.tsx:268 | the end of the run of digits that starts at an offset |
| Editor.TaskIdAt | client/src/pages/editor.tsx:268 | a match of /task_(\d+)_/ at an offset captures a non-empty run of digits enclosed by "task_" and "_" |
| Editor.TaskIdFrom | client/src/pages/editor.tsx:268 | a match at or after an offset exists iff the pattern matches at some position there |
| Editor.TaskIdLeftmost | client/src/pages/editor.tsx:268 | the match taken is the leftmost one |
| Editor.TaskId | client/src/pages/editor.tsx:268-270 | the content id captured from its task code occurs there between "task_" and "_" |
| Editor.TaskIdOfCode | client/src/pages/editor.tsx:268-270 | a task code built as task_{digits}_{rest} yields exactly those digits |
| Editor.DigitsEndOf | client/src/pages/editor.tsx:268 | a run of n digits followed by a non-digit ends n characters on |
| Editor.NoMarkerNoId | client/src/pages/editor.tsx:268-269 | a task code without "task_" yields no content id |
| Editor.ProgressOf | client/src/pages/editor.tsx:227 | the shown progress is that task's progress, or 0 when absent |
| Editor.VideoUrl | client/src/pages/editor.tsx:236 | a finished task plays its video_url when present and non-empty, else /videos/{result} |
| Editor.DatabaseVerdict | client/src/pages/editor.tsx:266-310 | the database check always ends monitoring; a code without a content id times out; a video is ready only for a successful lookup whose row says "completed", with the row's output path and id; a failure only for a row that says "failed" |
| Editor.Retry | client/src/pages/editor.tsx:259-263 | a failed check counts one more retry and keeps the progress; monitoring times out exactly when the count reaches 60, otherwise the next check comes in 5 s |
| Editor.Step | client/src/pages/editor.tsx:216-348 | one run of checkProgress schedules a further check exactly when monitoring goes on |
| Editor.ProgressReplyResets | client/src/pages/editor.tsx:224-256 | a code-10000 reply with data resets the retry count and shows that task's progress; a finished task (status 2 with a result) shows its video at 100, a "failed" or -1 status fails, any other status is checked again in 3 s |
| Editor.FailingReplyCounts | client/src/pages/editor.tsx:257-347 | a thrown query, a missing task, any other code or a 10000 reply without data costs one retry and ends monitoring exactly at the 60th |
| Editor.DatabaseOnlyOnLastMissing | client/src/pages/editor.tsx:257-263 | the database is consulted only by a 10004 reply that uses up the last retry |
| Editor.Run | client/src/pages/editor.tsx:216-352 | once monitoring has ended, later replies change nothing |
| Editor.FailuresEndMonitoring | client/src/pages/editor.tsx:213-347 | failing replies alone end monitoring, with the retry count at 60 |
| Editor.ProgressNeverGivesUp | client/src/pages/editor.tsx:224-256 | replies reporting an unfinished task keep monitoring going for ever, with the retry count at 0 |
| Editor.VideoMonitor.constructor | client/src/pages/editor.tsx:205-214 | monitoring of a task code starts at progress 0 with no retries |
| Editor.VideoMonitor.CheckProgress | client/src/pages/editor.tsx:216-348 | one firing performs the step function's update and returns the next delay exactly while monitoring goes on |
| Gallery.MockContent | client/src/pages/gallery.tsx:23-68 | four sample items are appended |
| Gallery.AllContent | client/src/pages/gallery.tsx:70 | the fetched content comes first, unchanged, followed by the four samples |
| Gallery.Filter | client/src/pages/gallery.tsx:72-77 | an item is shown iff it is present and passes the type filter ("all" passes everything) and the case-insensitive search |
| Gallery.FilterKeepsAll | client/src/pages/gallery.tsx:74-75 | with the "all" filter and no search term every item is shown |
| Gallery.FilterKeepsOrder | client/src/pages/gallery.tsx:72-77 | filtering keeps the items' relative order |
| Gallery.SortContent | client/src/pages/gallery.tsx:78-89 | sorting is a permutation of the filtered items |
| Gallery.SortOrder | client/src/pages/gallery.tsx:78-89 | "newest" orders by creation time descending, "oldest" ascending, "duration" by duration descending (absent as 0); any other key leaves the order unchanged |
| Gallery.FilteredContent | client/src/pages/gallery.tsx:72-89 | the list shown holds exactly the fetched and sample items that pass the filter |
| Gallery.CountKind | client/src/pages/gallery.tsx:196-204 | a type's count never exceeds the number of items |
| Gallery.KindCountsBounded | client/src/pages/gallery.tsx:188-204 | the audio and video counts together never exceed the total |
| Gallery.CountKindAppend | client/src/pages/gallery.tsx:196-204 | counting over a concatenation adds the counts of the parts |
| Gallery.MockCounts | client/src/pages/gallery.tsx:23-70 | the samples add two audio and two video items to the counts |
| Gallery.JsRem | client/src/pages/gallery.tsx:94 | JavaScript's remainder agrees with the mathematical one for non-negative dividends and takes the dividend's sign otherwise |
| Gallery.FormatDuration | client/src/pages/gallery.tsx:91-96 | an absent or zero duration is "生成中..." |
| Gallery.TwoDigits | client/src/pages/gallery.tsx:95 | padStart(2, '0') renders a number below 100 as its two decimal digits |
| Gallery.DigitCharInjective | client/src/pages/gallery.tsx:95 | distinct decimal digits render as distinct characters |
| Gallery.DurationShape | client/src/pages/gallery.tsx:91-96 | a positive duration of a minute or more is m:ss with two-digit seconds; below a minute it is the seconds and "秒", and the label ends in "秒" exactly then |
| Gallery.FormatDurationInjective | client/src/pages/gallery.tsx:91-96 | different positive durations get different labels |
| Gallery.MinutesEqual | client/src/pages/gallery.tsx:95 | the minutes before the ':' determine each other |
| Gallery.ColonAfterDigits | client/src/pages/gallery.tsx:95 | a ':' after a run of digits marks where the run ends |
| Gallery.StatusColor | client/src/pages/gallery.tsx:98-109 | the grey colour is used exactly for statuses other than completed, generating and failed |
| Gallery.StatusText | client/src/pages/gallery.tsx:111-122 | "未知" is shown exactly for statuses other than completed, generating and failed |
| Gallery.StatusLabelsAgree | client/src/pages/gallery.tsx:98-122 | the colour and the text choose the same case: two statuses share a colour iff they share a text |
| WebClientApp.TooLargeMessage | V/web-client/app.py:38-39 | the message of an oversized file prints the 100 MiB limit as "100MB" |
| WebClientApp.FormatsFor | V/web-client/app.py:44-47 | "audio" is checked against the audio formats, every other type against the video formats |
| WebClientApp.ValidateFile | V/web-client/app.py:32-52 | no file fails with the no-file message; an oversized file fails with the size message; an unsupported extension fails with the list of supported formats; a file is accepted iff present, within the limit and of a supported extension, with the passing message |
| WebClientApp.SizeBeforeFormat | V/web-client/app.py:37-50 | the size is checked first: an oversized file gets the size message whatever its name and type |
| WebClientApp.LimitIsInclusive | V/web-client/app.py:38 | a file of exactly the limit is accepted, one byte more is refused |
| WebClientApp.HistoryView | V/web-client/app.py:75-80 | the sidebar shows the last ten tasks (or fewer) newest first, each numbered by its position in the whole history |
| WebClientApp.HistoryPush | V/web-client/app.py:79-80 | a new task heads the view, numbered after all earlier ones, followed by the earlier view minus its last entry |
| WebClientApp.OlderTasksHidden | V/web-client/app.py:79 | a task falls out of view once ten newer tasks have been added |
| VideoGeneration.RequestError | client/src/components/video-generation.tsx:126-151 | the request is sent iff the trimmed text is non-empty and a model is chosen; the text is checked first ("請輸入文字內容"), then the model ("請選擇人物模型") |
| VideoGeneration.BlankTextRefused | client/src/components/video-generation.tsx:127 | a text of only blanks is refused even with a model chosen |
| VideoGeneration.Advance | client/src/components/video-generation.tsx:88 | a "still working" reply raises the bar by 5, never past 90 |
| VideoGeneration.Step | client/src/components/video-generation.tsx:68-111 | one firing of the interval clears it exactly when polling ends |
| VideoGeneration.StepOutcomes | client/src/components/video-generation.tsx:73-110 | only a 10000 reply completes, and shows 100; every code other than 10000 and 10001 fails, 10004 with the busy text; a thrown query changes nothing |
| VideoGeneration.StepKeepsValid | client/src/components/video-generation.tsx:86-88 | one firing keeps the bar within 0..90 while polling |
| VideoGeneration.Run | client/src/components/video-generation.tsx:67-114 | once polling has ended, further firings change nothing |
| VideoGeneration.RunKeepsValid | client/src/components/video-generation.tsx:62-111 | from the start (bar 0) the bar stays within 0..90 for as long as polling goes on |
| VideoGeneration.WorkingProgress | client/src/components/video-generation.tsx:86-88 | after k "still working" replies from the start the bar shows min(5k, 90) and polling goes on |
| VideoGeneration.RunSnoc | client/src/components/video-generation.tsx:67-112 | a further reply after a stream is one more firing, unless polling has ended |
| VideoGeneration.ThrowsKeepPolling | client/src/components/video-generation.tsx:108-110 | failed queries never stop the interval: any number of them leaves the state as it was |
| VideoGeneration.ProgressPoller.constructor | client/src/components/video-generation.tsx:61-64 | polling starts with the bar at 0 |
| VideoGeneration.ProgressPoller.Tick | client/src/components/video-generation.tsx:68-111 | one firing performs the step function's update and keeps the bar within 0..90 |
| AudioPlayer.SrcValid | client/src/components/audio-player.tsx:20-30 | a valid source is a present, non-empty string, and the strings "undefined" and "null" are refused |
| AudioPlayer.FullAudioUrl | client/src/components/audio-player.tsx:33-35 | http and blob: sources are played as given; any other source is appended to the origin with exactly one leading '/' |
| AudioPlayer.LeadingSlashOptional | client/src/components/audio-player.tsx:35 | a relative path yields the same URL with or without its leading '/' |
| AudioPlayer.FullAudioUrlIdempotent | client/src/components/audio-player.tsx:33-35 | with an http origin the URL is complete: normalising it again changes nothing |
| AudioPlayer.Trunc | client/src/components/audio-player.tsx:131 | truncation agrees with the floor for non-negative numbers |
| AudioPlayer.FormatTime | client/src/components/audio-player.tsx:127-133 | NaN shows "0:00" |
| AudioPlayer.FormatTimeSplits | client/src/components/audio-player.tsx:127-133 | a non-negative time shows whole minutes, ':' and the remaining whole seconds (below 60) in two digits, which together make up the time's whole seconds |
| AudioPlayer.FloorShift | client/src/components/audio-player.tsx:131 | adding a whole number shifts the floor by that number |
| AudioPlayer.ProgressPercentage | client/src/components/audio-player.tsx:135 | 0 until a positive duration is known, then the share of the duration played, in percent |
| AudioPlayer.ProgressBounded | client/src/components/audio-player.tsx:135 | within the track the bar stays in 0..100 and reaches 100 at the end |
| AudioPlayer.AsWrittenNeverGivesUp | client/src/components/audio-player.tsx:37-104 | as written, the retry count is in the effect's dependencies and the effect resets it, so after any number of load errors the count is back to 0, the error panel is never shown and the audio keeps being reloaded |
| AudioPlayer.ThreeRetriesThenError | client/src/components/audio-player.tsx:57-75 | as intended: the first three load errors each reload once, the fourth shows the error panel and stops loading |
| AudioPlayer.Player.constructor | client/src/components/audio-player.tsx:20-47 | a source refused by the validity check shows the invalid-source panel and never loads; a valid one is played from its full URL and the first load starts with a zero retry count |
| AudioPlayer.Player.OnError | client/src/components/audio-player.tsx:57-104 | as written: below three retries the increment and the reset each re-run the effect, so the count is back at 0 after two more loads; otherwise the error panel is shown |
| AudioPlayer.Player.OnCanPlay | client/src/components/audio-player.tsx:77-81 | a canplay event ends loading and resets the retry count |
| ModelGrid.CeilDiv | client/src/components/model-grid.tsx:60 | Math.ceil of a non-negative quotient: the least whole number of divisors covering the dividend |
| ModelGrid.FormatDate | client/src/components/model-grid.tsx:55-67 | no date gives "未知"; more than thirty days either way gives the locale date |
| ModelGrid.DateLabelByElapsed | client/src/components/model-grid.tsx:59-66 | the same instant is "0天前", up to one day "今天", up to two days "昨天", beyond thirty days the locale date |
| ModelGrid.WeeksRange | client/src/components/model-grid.tsx:65 | the weeks label of 8..30 days counts 2..5 weeks |
| ModelGrid.FormatDateSymmetric | client/src/components/model-grid.tsx:59 | a date in the future gets the label of the date equally far in the past |
| ModelGrid.LabelsFor | client/src/components/model-grid.tsx:43-53 | icon, colour, type text and button captions all follow one test: the type is "voice" |
| ModelGrid.NonVoiceTypesAlike | client/src/components/model-grid.tsx:112-115 | every type other than "voice" is shown alike, as a character |
| ModelGrid.StatusBadge | client/src/components/model-grid.tsx:119-126 | no badge iff the status is "ready"; "訓練中..." iff "training"; "訓練失敗" in red for every other status |
| ModelGrid.DeleteRequest | client/src/components/model-grid.tsx:37-41 | a DELETE for the model's id is sent iff the confirmation is accepted |
| BasicTts.FindVoice | client/src/components/tts/basic-tts.tsx:123 | the entry returned is the first in the list with the selected id; none iff no entry has it |
| BasicTts.BuildRequestBody | client/src/components/tts/basic-tts.tsx:90-136 | text, service, format "wav" and language (zh-TW for ATEN, zh otherwise) are always sent; emotion and volume only for MiniMax; a voice configuration for MiniMax and ATEN always, for VoAI exactly when the selected voice is found in the list, with each service's field mapping; no other fields |
| BasicTts.AtenRanges | client/src/components/tts/basic-tts.tsx:109-118 | the ATEN conversion takes the sliders' pitch (-12..12) and volume ranges into ATEN's -2..2 and -6..6, neutral settings to 0 |
| BasicTts.ResetVoice | client/src/components/tts/basic-tts.tsx:78-86 | on a service change the first ATEN model id or the first VoAI voice id is selected when the list is non-empty, otherwise no voice |
| BasicTts.VoAiResetFindsVoice | client/src/components/tts/basic-tts.tsx:81-134 | the voice picked on switching to VoAI is found again when the request is built, so the request configures the list's first voice |
| BasicTts.DefaultVoAiVoice | client/src/components/tts/basic-tts.tsx:60-70 | with the fixed VoAI list the default voice is "佑希-預設" and it resolves to the first entry |
| BasicTts.ResolveAudio | client/src/components/tts/basic-tts.tsx:146-184 | a response that is not ok fails with "TTS 生成失敗"; a non-audio one fails with that text plus the body; otherwise the X-Filename file under /audios, else X-Audio-Path (absolute or under the origin), else a blob URL, which is used exactly when neither header is set |
| BasicTts.ServerUrlsAbsolute | client/src/components/tts/basic-tts.tsx:164-173 | with an http origin every server URL is absolute, and X-Filename takes precedence over X-Audio-Path |
| BasicTts.TextError | client/src/components/tts/basic-tts.tsx:202-210 | the request is sent iff the trimmed text is non-empty, otherwise the "請輸入文字" toast |
| BasicTts.BlankTextRefused | client/src/components/tts/basic-tts.tsx:203 | a text of only blanks is refused |
| Sorting.SortBy | V/web-vue/server.js:418 | sorting by a numeric key yields a list ordered by that key that is a permutation of the input |
| NumFmt.JsFixed1 | V/web-vue/audio_checker.js:169 | `toFixed(1)` prints exactly one digit after the point, with a leading '-' exactly for a negative value |
| NumFmt.Fixed1 | V/tools/audio-testing/audio_checker.py:124 | the `.1f` format prints exactly one digit after the point, a leading '-' for a negative value, and a '+' only when asked for |
| NumFmt.RoundHalfEven | V/tools/audio-testing/audio_checker.py:124 | Python's formatting rounds to an integer within half of the value, an exact tie to the even one |
| NumFmt.RenderTenthsParses | V/tools/audio-testing/audio_checker.py:85 | `float` reads back exactly the value a one-decimal rendering shows |
| NumFmt.JsParseFloat | V/web-vue/audio_checker.js:121 | `parseFloat` yields a number exactly when a numeric prefix starts the text, and agrees with Python's `float` wherever that accepts the whole text |
| NumFmt.PyFloat | V/tools/audio-testing/audio_checker.py:85 | `float` yields a number only when the whole text is one number |

## Left out

- Network, subprocess and foreign calls are parameters, never modelled: `aiohttp`, `requests`, `axios`, `fetch`, `edge_tts`, `AsyncOpenAI`, `bcrypt`, ffprobe and ffmpeg.
- The waveform synthesis of the simulation fallbacks is the parameter `synth`. This covers sinusoid sums, unseeded Gaussian noise, fades and float32 WAV encoding. The model keeps only the duration and sample-count formulas and the parameter tables, because the rest is floating-point numerics with randomness.
- `tanh` and `sin` are parameters. Properties that rest on them assume their range.
- Sleeps and timers (`asyncio.sleep`, `time.sleep`, `setTimeout`, `setInterval`) are not modelled. Elapsed time is an explicit clock argument, and each timer firing is one call of a step method.
- `startCleanupService` and `performCleanup` scheduling is not modelled, because it is timer plumbing around the modelled sweeps.
- The log output of every file (`logger`, `print`, `console`) is not modelled, nor is the printing `main` of the Python checker.
- The `get_info` and `get_available_voices` description tables of the adapters are not modelled, because they are constant data. The gateway sees them only through the oracle its listing calls.
- OpenAI's `get_usage_info` is not modelled, because it returns a constant.
- VoAI's `_fetch_speakers` HTTP request is not modelled. The speakers list it yields is a parameter of `get_voices`.
- `getVideoOutputInfo` in server/config.ts is not modelled, because it returns constants.
- FileCleanup.CleanupTempTtsFiles: the source rereads the content database for each file it inspects, while the model reads one snapshot for the whole sweep.
- TestWav.NumSamples: computed with exact arithmetic, where the source multiplies Python floats before `int()`.
- Paths are joined with '/' without the normalisation of `path.join` and `os.path.join`.
- Case folding and white space are ASCII only, with no Unicode case mapping or normalisation.
- `toLocaleDateString` in the model cards is not modelled, because it depends on the browser's locale. It is an opaque label.
- Media durations are finite reals. `Infinity` and `NaN` durations reach the audio player only as "not a number".
- Rounding follows each language. `Math.round` and `toFixed` round halves up, and Python's `format` rounds halves to even (`NumFmt`). Cases where binary floating point would round a decimal tie differently are not modelled.
- Dates are the millisecond values of their ISO strings. Parsing and printing ISO timestamps are not modelled.
- Multer upload storage, static file serving, the proxy routes and the `/results/*` handler are not modelled, because they are framework plumbing.
- The `/api/videos` and `/api/video/status` handlers of the Express servers are not modelled. They are plain pass-throughs of the stored list and of the face2face reply.
- The backup server's video-submit and TTS handlers are not modelled separately. They match the web-vue handlers modelled in `WebVueServer`.
- BasicTts: the contents of fetched blobs are opaque. The filename offered for download is not modelled.
- BasicTts: `service3` voice entries are assumed to carry a `model_id`.
- BasicTts: the voices query is assumed to be enabled, which the component's `enabled` flag controls.
- VideoGeneration.Step, VideoGeneration.Run and VideoGeneration.ProgressPoller.Tick: the interval's callback is `async` and `setInterval` does not wait for it, so a query slower than 3 s overlaps the next, and a reply still in flight is handled after completion or after `clearInterval` (a late 10001 after a 10000 sets the bar back, a late failure toast can follow success). The model handles one firing's reply before the next firing; overlapping replies are not modelled.
- AudioCheckerJs.ParseFloat and NumFmt.PyFloat: only the plain decimal forms `[+-]digits[.digits]` are read. Exponents, `Infinity` and leading white space are not, and ffmpeg never prints them for a mean volume.
- UserService: uniqueness of ids assumes the stored ids are the ones the service itself handed out. A hand-edited file with duplicate ids is outside the model.
- FileCleanup.CleanupUnfavoritedContent: the proofs assume the stored records have distinct ids. The source splices by id, so with duplicate ids it could remove a record other than the one it selected.

## Findings

| source | as written | input that shows it | evidently intended | confidence | as-written member | corrected member |
|---|---|---|---|---|---|---|
| tts-services/services/aten_service.py:271-284 | the escape table is applied entry by entry to the whole text, `"` before `&`, so the ampersand of `&quot;` is escaped again | the text `"` becomes `&amp;quot;`, which an XML reader decodes to the literal `&quot;` | every character escaped once, so that the reader recovers the text | not executed | Aten.BuildSsmlDoubleEscapesQuote | Aten.BuildSsmlCarriesText |
| V/tts-extracted/simple_tts_server.py:64-83 | the 400 for an over-long text is raised inside the `try` whose `except Exception` turns it into a 500 | a text of 1001 characters | a 400 "文本太長，最大支援 1000 字符" | not executed | TestWav.TtsInvokeLongTextIsServerError | TestWav.TtsInvokeChecked |
| tts-services/services/voai_service.py:302-309 | the `raise` carrying the JSON error message sits inside a bare `try/except` that replaces it with the format error | a 200 reply of type application/json with body `{"message": m}` | "VoAI API 錯誤: m" | not executed | Voai.NonAudioMessageLost | Voai.NonAudioError |
| V/tools/backup/server_fixed.js:311-316 | the delete joins the stored `videoPath` to the upload folder, though the create reduced a shared path to its file name | a model created with `videoPath` `/code/data/a.mp4` | the delete removes `uploads/a.mp4`, the file the create checked | not executed | ServerFixed.SharedPathUploadNotRemoved | ServerFixed.DeleteTarget |
| V/tools/backup/server_fixed.js:345-404 | `canUseForVoiceCloning` and `quickAudioCheck` are called but never imported, so each call throws | any request with a non-empty `filePath` | the checker's verdict on the upload | not executed | ServerFixed.AudioEndpointsAlwaysFail | ServerFixed.AudioCheck |
| client/src/components/audio-player.tsx:37-104 | `retryCount` is a dependency of the effect that resets it to 0, so each increment re-runs the effect and the count never reaches 3 | four load errors in a row | three reloads, then the error panel | not executed | AudioPlayer.AsWrittenNeverGivesUp | AudioPlayer.ThreeRetriesThenError |
