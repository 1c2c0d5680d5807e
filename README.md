# VibeFilter Studio core, modelled in Dafny

This project models the core of VibeFilter Studio, a browser app for video calls with filters. It covers six parts:

- **Colour grading.** Six slider values, merged by partial patches, reset and replaced by presets, and turned into a filter descriptor with brightness, contrast, saturate and hue-rotate.
- **Signalling.** Per-call (`call:<id>`, event `signal`) and per-user (`user:<id>`, event `notify`) broadcast channels.
- **Peer connection.** The offer/answer helpers over the standard signalling state machine of the W3C WebRTC 1.0 specification, section 4.3.1.
- **Call page.** How it dispatches incoming signals, starts and joins a call, and tears down.
- **Frame pipeline.** The hook that copies a camera stream through a canvas with the filter applied.
- **Pages and components.** The incoming-call listener, the contacts page, the filter gallery, the live preview's preset styles, the overlay permission panel and the authentication route guard.

Each source module has one Dafny module:

| Dafny module | file | models |
|---|---|---|
| `Wrappers` | `wrappers.dfy` | `Option`, `Outcome`, `Result` |
| `Sequences` | `sequences.dfy` | subsequences (order kept) and lists without duplicates |
| `Media` | `media.dfy` | the `Stream` shared by the call page and the preview |
| `ColorGrading` | `color_grading.dfy` | grading state, patches, descriptor, class `GradingProvider` |
| `Signaling` | `signaling.dfy` | payload, channels, class `Transport` |
| `WebRtc` | `webrtc.dfy` | class `PeerConnection`, `CreateOffer` / `AcceptOffer` / `AcceptAnswer` |
| `CallPage` | `call_page.dfy` | a signal's `Action` and class `CallPage` |
| `ProcessedStream` | `processed_stream.dfy` | class `Pipeline` (one effect run), class `ProcessedStreamHook` |
| `Notifications` | `notifications.dfy` | the ring-to-route decision |
| `Contacts` | `contacts.dfy` | class `ContactsPage` |
| `FilterGallery` | `filter_gallery.dfy` | catalogue, category selection, favourites |
| `VideoPreview` | `video_preview.dfy` | preset styles, class `VideoPreview` |
| `OverlaySettings` | `overlay_settings.dfy` | permission flags, class `OverlaySettings` |
| `ProtectedRoute` | `protected_route.dfy` | the route guard |

Stateful parts are classes whose methods update fields; pure parts are functions, with lemmas stating what they guarantee.

Anything the app only observes enters as a method parameter. That covers:

- a database reply
- a `getUserMedia` result
- whether a draw threw
- an ICE candidate

Sending and subscribing are recorded in `Signaling.Transport`: it keeps an outbox of `(topic, event, payload)` envelopes and the set of subscribed topics. Delivery is `Signaling.Deliver`, which hands a payload to a channel exactly when topic and event match.

Grading numbers are exact (`int` sliders, `real` descriptor parts). The descriptor therefore has closed forms:

- brightness is `b·(200+e)/20000`
- contrast is `c·(1000+3e)/100000`
- saturate is `s/100`
- hue-rotate is `(2·tint − 3·temperature)/5`

Four behaviours of the code are worth noting (the model follows the code):

- Grading values are never clamped: `setState` spreads the patch as given (`src/context/color-grading.tsx:34`), modelled by `ColorGrading.NoClamping`.
- Each pipeline run draws with the filter captured when the run started. The drawing effect depends on the source alone, and the filter effect is empty (`src/hooks/useProcessedStream.ts:43`, `:67`, `:69-72`). A later filter change therefore reaches the canvas only when the source stream changes (`ProcessedStream.ProcessedStreamHook.Render`).
- A `hangup` signal only shows a "Call ended" notice. It tears nothing down (`src/pages/Call.tsx:71-73`, `CallPage.CallPage.OnSignal`).
- Call-page teardown unsubscribes, closes the connection and clears the reference. It does not stop the camera tracks (`src/pages/Call.tsx:36-38`, `:82-86`, `CallPage.CallPage.Disconnect`). Only the pipeline's cleanup stops the tracks of its own output stream (`src/hooks/useProcessedStream.ts:63`).

## Model

| member | source | states |
|---|---|---|
| ColorGrading.Merge | src/context/color-grading.tsx:34 | every field of the result is the patch's value where the patch has one and the old value otherwise |
| ColorGrading.MergeEmpty | src/context/color-grading.tsx:34 | an empty patch leaves the state unchanged |
| ColorGrading.MergeIdempotent | src/context/color-grading.tsx:34 | applying the same patch twice equals applying it once |
| ColorGrading.MergeFullReplaces | src/context/color-grading.tsx:34 | a patch that names every field replaces the state with that state |
| ColorGrading.MergeCompose | src/context/color-grading.tsx:34 | two successive patches equal one patch in which the later value wins per field |
| ColorGrading.NoClamping | src/context/color-grading.tsx:34 | any value, inside or outside the slider range, is stored exactly as given |
| ColorGrading.FullPatch | src/context/color-grading.tsx:34 | the patch names every field with that state's value |
| ColorGrading.PatchOf | src/context/color-grading.tsx:34 | the patch names exactly the one field, with the given value |
| ColorGrading.PresetState | src/context/color-grading.tsx:38-47 | the six tuple positions become brightness, contrast, saturation, temperature, tint and exposure, in that order |
| ColorGrading.Describe | src/context/color-grading.tsx:49-64 | the descriptor equals the closed forms b·(200+e)/20000, c·(1000+3e)/100000, s/100, (2·tint−3·temp)/5 |
| ColorGrading.DefaultsAreNeutral | src/context/color-grading.tsx:20-27 | the defaults lie in the slider ranges and describe the identity filter (1, 1, 1, 0 degrees) |
| ColorGrading.DescriptorBounds | src/components/ColorGrading.tsx:20-66 | inside the slider ranges brightness is in [0, 3], contrast in [0, 2.6], saturate in [0, 2] and hue-rotate in [−100, 100] degrees |
| ColorGrading.BrightnessMonotone | src/context/color-grading.tsx:52-64 | inside the ranges, raising the brightness slider never lowers the brightness descriptor |
| ColorGrading.HueNeutralIff | src/context/color-grading.tsx:56-64 | the hue rotation is zero exactly when 2·tint equals 3·temperature |
| ColorGrading.CinematicPreset | src/components/ColorGrading.tsx:119 | the Cinematic preset is in range and describes brightness 0.9025, contrast 1.261, saturate 0.9, hue 8 degrees |
| ColorGrading.QuickPresetsInRange | src/components/ColorGrading.tsx:118-121 | all four quick presets lie within the slider ranges |
| ColorGrading.GradingProvider.constructor | src/context/color-grading.tsx:32 | the provider starts at the defaults |
| ColorGrading.GradingProvider.SetState | src/context/color-grading.tsx:34 | the new state is the old state merged with the patch |
| ColorGrading.GradingProvider.Reset | src/context/color-grading.tsx:36 | the state becomes the defaults |
| ColorGrading.GradingProvider.ApplyPreset | src/context/color-grading.tsx:38-47 | the state becomes the preset's state, whatever it was before |
| ColorGrading.GradingProvider.ComputeFilter | src/context/color-grading.tsx:49-66 | the current state's brightness, contrast, saturate and hue-rotate as the closed forms over its fields, each bounded while the state is inside the slider ranges |
| Signaling.CallTopic | src/lib/signaling.ts:12 | the topic is "call:" followed by the call id |
| Signaling.UserTopic | src/lib/signaling.ts:34 | the topic is "user:" followed by the user id |
| Signaling.CreateCallChannel | src/lib/signaling.ts:11-30 | the call channel uses the call topic and the event "signal" |
| Signaling.CreateUserChannel | src/lib/signaling.ts:33-50 | the user channel uses the user topic and the event "notify" |
| Signaling.Wrap | src/lib/signaling.ts:26-28 | a sent broadcast carries the channel's topic and event and the payload unchanged |
| Signaling.Deliver | src/lib/signaling.ts:14-19 | a listener receives an envelope exactly when topic and event match, and gets its payload |
| Signaling.Transport.constructor | src/lib/signaling.ts:1 | nothing is sent or subscribed at first |
| Signaling.Transport.Send | src/lib/signaling.ts:26-28 | the envelope is appended to the outbox and nothing else changes |
| Signaling.Transport.Subscribe | src/lib/signaling.ts:14-19 | the channel's topic joins the subscribed set |
| Signaling.Transport.RemoveChannel | src/lib/signaling.ts:20-23 | the channel's topic leaves the subscribed set |
| Signaling.CallTopicInjective | src/lib/signaling.ts:12 | distinct call ids give distinct topics |
| Signaling.UserTopicInjective | src/lib/signaling.ts:34 | distinct user ids give distinct topics |
| Signaling.TopicKindsDisjoint | src/lib/signaling.ts:12-34 | no call topic equals a user topic |
| Signaling.SendDeliverRoundTrip | src/lib/signaling.ts:14-28 | what a channel sends, the same channel's listener receives unchanged |
| Signaling.ChannelKindsIsolated | src/lib/signaling.ts:11-50 | call-channel traffic never reaches a user-channel listener, and the reverse |
| Signaling.CallsIsolated | src/lib/signaling.ts:11-30 | a call channel receives another call channel's traffic exactly when the call ids are equal |
| WebRtc.NextState | src/lib/webrtc.ts:11-26 | an offer goes from stable (or a pending offer on the same side) to a pending offer on that side; an answer completes only the other side's pending offer; anything else is refused |
| WebRtc.OfferAnswerExchange | src/lib/webrtc.ts:11-26 | local and remote offers open the negotiation, the matching answers return to stable, and an answer in stable is refused |
| WebRtc.AnswerClosesOffer | src/lib/webrtc.ts:11-26 | an answer is accepted only during a negotiation, and the other side's answer to any accepted offer returns to stable |
| WebRtc.PeerConnection.constructor | src/lib/webrtc.ts:1-9 | one STUN server (Google's), a track handler installed, stable, no descriptions, tracks or candidates |
| WebRtc.PeerConnection.GenerateOffer | src/lib/webrtc.ts:12 | offer creation fails exactly on a closed connection or while a remote offer awaits an answer, with an invalid-state error; a success is an offer and advances the generator |
| WebRtc.PeerConnection.GenerateAnswer | src/lib/webrtc.ts:19 | answer creation fails exactly when closed or without a pending remote offer |
| WebRtc.PeerConnection.SetDescription | src/lib/webrtc.ts:13 | a description is accepted exactly when the state machine allows it; it then moves the state and sets that side's description; otherwise nothing changes |
| WebRtc.PeerConnection.AddIceCandidate | src/pages/Call.tsx:70 | a candidate is applied exactly when open with a remote description, and then appended |
| WebRtc.PeerConnection.AddTrack | src/pages/Call.tsx:91 | a track is added exactly when open and not yet added; failure keeps the senders and names the error |
| WebRtc.PeerConnection.Close | src/pages/Call.tsx:84 | the connection is closed |
| WebRtc.CreateOffer | src/lib/webrtc.ts:11-15 | succeeds exactly when open and stable or already offering; the offer becomes the local description and the state is a pending local offer |
| WebRtc.AcceptOffer | src/lib/webrtc.ts:17-22 | succeeds exactly when open and given an offer that can be applied; the answer becomes the local description and the state returns to stable |
| WebRtc.AcceptAnswer | src/lib/webrtc.ts:24-26 | succeeds exactly when the answer can be applied remotely; it becomes the remote description |
| CallPage.Dispatch | src/pages/Call.tsx:60-74 | own and ring signals are ignored; offer, answer and ice act exactly when they carry data, passing it on; hangup shows the call-ended notice |
| CallPage.AnswerPayload | src/pages/Call.tsx:66 | the answer signal makes the peer's handler apply exactly that answer, and the sender's own handler drop it |
| CallPage.OfferPayload | src/pages/Call.tsx:94 | the offer signal makes the peer's handler answer exactly that offer, and the sender's own handler drop it |
| CallPage.IcePayload | src/pages/Call.tsx:78 | the ice signal makes the peer's handler apply exactly that candidate, and the sender's own handler drop it |
| CallPage.CallPage.Reaction | src/pages/Call.tsx:61-62 | no action without a connection or user, or for the user's own signals; otherwise the dispatch of the signal |
| CallPage.AddEach | src/pages/Call.tsx:91 | all tracks are added exactly when the connection accepts them (open, pairwise distinct, not already present); otherwise the tracks before the first that throws stay added, and that one is the first track on a closed connection or one already added |
| CallPage.AddEachAddsAddable | src/pages/Call.tsx:91 | every track the loop added was addable when its turn came: the connection was open and neither an earlier sender nor an earlier track of the stream was the same track |
| CallPage.AddTracks | src/pages/Call.tsx:91 | the loop adds the tracks exactly as the specification function says |
| CallPage.AsDescription | src/pages/Call.tsx:65-68 | only session-description data is handed to the helpers, unchanged |
| CallPage.CallPage.constructor | src/pages/Call.tsx:12-24 | no connection, no streams, no notices |
| CallPage.CallPage.Connect | src/pages/Call.tsx:47-58 | without a call id or user nothing happens; otherwise a fresh connection is created, the call topic is subscribed and the candidate handler installed |
| CallPage.CallPage.OnSignal | src/pages/Call.tsx:60-74 | an offer is answered and the answer sent; when it cannot be answered, nothing is sent and the remote description stays set just if it could be; an answer is applied; a candidate is applied (failure swallowed); a hangup adds a notice; anything else changes nothing |
| CallPage.CallPage.OnLocalCandidate | src/pages/Call.tsx:76-80 | a non-null local candidate is sent as an ice signal from this user |
| CallPage.CallPage.StartCall | src/pages/Call.tsx:89-96 | with a connection, processed stream and user, adds the tracks, creates an offer, sends it and shows "Calling..."; the connection keeps its remote description, candidates, closed flag and track handler; otherwise nothing changes, the connection included |
| CallPage.CallPage.JoinCall | src/pages/Call.tsx:98-102 | with a connection and processed stream, adds the tracks and shows "Ready to answer" once all were added, changing nothing else on the connection; otherwise nothing changes, the connection included |
| CallPage.CallPage.Disconnect | src/pages/Call.tsx:82-86 | unsubscribes, closes the connection and clears the reference; no local candidate is forwarded afterwards; streams are untouched |
| CallPage.CallPage.OnCameraResult | src/pages/Call.tsx:30-35 | a granted camera becomes the raw stream; a refusal adds the permission notice |
| CallPage.CallPage.ReleaseCamera | src/pages/Call.tsx:36-38 | the raw stream is cleared |
| CallPage.CallPage.OnProcessedStream | src/pages/Call.tsx:22 | the hook's output becomes the page's processed stream |
| CallPage.CallPage.OnTrack | src/pages/Call.tsx:50-55 | the remote video shows the track event's first stream |
| ProcessedStream.OrDefault | src/hooks/useProcessedStream.ts:31-32 | a missing or zero setting falls back to the default |
| ProcessedStream.CanvasSize | src/hooks/useProcessedStream.ts:27-34 | the canvas is never zero-sized; it is 1280×720 unless the first video track reports a non-zero width or height |
| ProcessedStream.ContextFilter | src/hooks/useProcessedStream.ts:43 | the context filter is the given string, or "none" for an empty one |
| ProcessedStream.Pipeline.constructor | src/hooks/useProcessedStream.ts:22-57 | canvas sized from the source, not stopped, no frame pending, metadata not yet loaded, listening for it, one live output track |
| ProcessedStream.Pipeline.Request | src/hooks/useProcessedStream.ts:46 | exactly one frame is pending, with a new handle |
| ProcessedStream.Pipeline.OnLoaded | src/hooks/useProcessedStream.ts:50-54 | while listening, the metadata counts as loaded and the pending frame is replaced by exactly one new one; otherwise nothing changes |
| ProcessedStream.Pipeline.Tick | src/hooks/useProcessedStream.ts:40-47 | runs only for the pending frame (or a frame still arriving after cleanup); a stopped pipeline does nothing; otherwise it draws once with the captured filter (a throw swallowed) and requests the next frame; no draw happens before the metadata has loaded |
| ProcessedStream.Pipeline.Cleanup | src/hooks/useProcessedStream.ts:59-64 | stopped, no frame pending, no listener, every output track stopped |
| ProcessedStream.ProcessedStreamHook.constructor | src/hooks/useProcessedStream.ts:4-7 | no pipeline and no processed stream |
| ProcessedStream.ProcessedStreamHook.Render | src/hooks/useProcessedStream.ts:20-72 | an unchanged source changes nothing, even under a new filter; a new source cleans up the old pipeline and, when non-null, starts a fresh one with the current filter and publishes its stream |
| Notifications.CallRoute | src/components/NotificationsListener.tsx:20 | the route is "/call/" followed by the call id |
| Notifications.CallRouteInjective | src/components/NotificationsListener.tsx:20 | distinct call ids give distinct routes |
| Notifications.ListenChannel | src/components/NotificationsListener.tsx:12-13 | a signed-in user listens on their own user channel; no user, no listener |
| Notifications.RingRoute | src/components/NotificationsListener.tsx:15-20 | a route is offered exactly for a ring with a non-empty call id, and it opens that call |
| Notifications.RingRouteIgnoresSenderAndData | src/components/NotificationsListener.tsx:15-20 | the offer depends neither on sender, target nor data |
| Contacts.MyContactIds | src/pages/Contacts.tsx:35 | the set holds exactly the other party of each row |
| Contacts.ExcludeSelf | src/pages/Contacts.tsx:46 | the results are exactly the profiles that are not the signed-in user, in their original order |
| Contacts.ExcludeSelfMultiplicity | src/pages/Contacts.tsx:46 | the filter keeps each other profile as many times as the query returned it and drops every copy of the user's own |
| Contacts.Limit | src/pages/Contacts.tsx:44 | exactly the first n rows of the reply, or the whole reply when it has at most n |
| Contacts.RingPayload | src/pages/Contacts.tsx:65 | a ring from the caller to the callee, carrying the call id and no data, which routes the callee's listener to the call's page (none for an empty id) |
| Contacts.SearchResultsBounded | src/pages/Contacts.tsx:44-46 | search shows at most ten results and never the signed-in user |
| Contacts.RingOpensCallersPage | src/pages/Contacts.tsx:62-67 | the callee's listener receives the ring and is offered the same route the caller navigates to |
| Contacts.ContactsPage.constructor | src/pages/Contacts.tsx:14-18 | empty query, results and contacts |
| Contacts.ContactsPage.OffersAdd | src/pages/Contacts.tsx:85 | "Add" is offered for a profile exactly when it is not the other party of any loaded contact row |
| Contacts.ContactsPage.LoadContacts | src/pages/Contacts.tsx:22-33 | for a signed-in user the contacts become the reply, or empty on error |
| Contacts.ContactsPage.Search | src/pages/Contacts.tsx:37-47 | the query is recorded; an empty term clears results; an error keeps them; a reply is limited to ten and excludes the user |
| Contacts.ContactsPage.RequestContact | src/pages/Contacts.tsx:49-54 | for a signed-in user, a request row is inserted and the outcome notice shown |
| Contacts.ContactsPage.StartCall | src/pages/Contacts.tsx:56-68 | one call insert by the user; with a created call, a caller row is inserted, a ring sent on the callee's user channel and the page moves to the call; without one, a failure notice |
| FilterGallery.Select | src/components/FilterGallery.tsx:97-99 | the shown filters are exactly those of the category (all for "All"), in catalogue order |
| FilterGallery.FilteredFilters | src/components/FilterGallery.tsx:97-99 | the selection is taken from the built-in catalogue |
| Sequences.SubsequenceDropHead | src/components/FilterGallery.tsx:97-99 | order is kept when the catalogue's head is skipped |
| Sequences.SubsequenceTail | src/components/FilterGallery.tsx:97-99 | dropping the selection's head keeps it in order |
| FilterGallery.CatalogueWellFormed | src/components/FilterGallery.tsx:8-91 | filter ids are distinct and each filter's category is a listed category other than "All" |
| FilterGallery.Remove | src/components/FilterGallery.tsx:104 | removal deletes every occurrence of the id, keeps every other element with its multiplicity, and keeps them in order |
| FilterGallery.Toggle | src/components/FilterGallery.tsx:101-107 | the id is a favourite afterwards exactly when it was not; a new one is appended; others are unaffected |
| FilterGallery.ToggleKeepsNoDuplicates | src/components/FilterGallery.tsx:101-107 | toggling keeps the favourites free of duplicates |
| FilterGallery.RemoveKeepsNoDuplicates | src/components/FilterGallery.tsx:104 | removal keeps the favourites free of duplicates |
| FilterGallery.RemoveAppended | src/components/FilterGallery.tsx:104-105 | removing a freshly appended id restores the list |
| FilterGallery.ToggleTwiceRestores | src/components/FilterGallery.tsx:101-107 | toggling a non-favourite twice restores the list |
| FilterGallery.ToggleTwiceMovesToEnd | src/components/FilterGallery.tsx:101-107 | toggling a favourite twice moves it to the end |
| FilterGallery.ClicksKeepNoDuplicates | src/components/FilterGallery.tsx:101-107 | any run of heart clicks keeps a duplicate-free favourites list duplicate-free |
| FilterGallery.InitialState | src/components/FilterGallery.tsx:93-99 | the gallery opens on "All" showing the whole catalogue, with no favourites, and no run of clicks from there lists a favourite twice |
| VideoPreview.FilterStyle | src/components/VideoPreview.tsx:55-70 | each of the five presets has its fixed style; any other name gives "none" |
| VideoPreview.FilterStyleInjective | src/components/VideoPreview.tsx:55-70 | the five styles are pairwise different |
| VideoPreview.VideoPreview.constructor | src/components/VideoPreview.tsx:8-10 | not playing, filter "none" |
| VideoPreview.VideoPreview.Style | src/components/VideoPreview.tsx:102 | the video is styled (not "none") exactly for the five styled presets, and never without the badge |
| VideoPreview.VideoPreview.ShowsBadge | src/components/VideoPreview.tsx:110-114 | for a preset button's name the badge shows exactly when the video is styled |
| VideoPreview.VideoPreview.ApplyFilter | src/components/VideoPreview.tsx:50-53 | the filter becomes the name; the badge shows exactly for a name other than "none" |
| VideoPreview.VideoPreview.StartCamera | src/components/VideoPreview.tsx:19-31 | with a stream and a mounted element the stream is attached and playing; a refusal adds the notice |
| VideoPreview.VideoPreview.StopCamera | src/components/VideoPreview.tsx:33-40 | with an attached stream, all its tracks are stopped, the element is detached and playing stops |
| VideoPreview.VideoPreview.ToggleCamera | src/components/VideoPreview.tsx:42-48 | while playing, exactly the effect of stopping the camera (tracks stopped, detached, no notice); otherwise exactly the effect of starting it (attached and playing, or the unavailable notice) |
| OverlaySettings.AfterRequest | src/components/OverlaySettings.tsx:28-55 | a successful device request sets its flag; accessibility is always set; a failure or an unknown key changes nothing; no flag is cleared |
| OverlaySettings.RequestsMonotone | src/components/OverlaySettings.tsx:28-55 | no sequence of requests clears a granted flag |
| OverlaySettings.OverlaySettings.constructor | src/components/OverlaySettings.tsx:19-26 | overlay off, auto-detection on, no permissions, so the disabled warning shows and every listed permission offers Grant |
| OverlaySettings.OverlaySettings.RequestPermission | src/components/OverlaySettings.tsx:28-55 | flags as in AfterRequest; a granted key no longer offers Grant and the other keys keep theirs; success and failure notices for device keys, success for accessibility, none for unknown keys |
| OverlaySettings.OverlaySettings.SetOverlayEnabled | src/components/OverlaySettings.tsx:103-105 | the overlay switch takes the new value, and the disabled warning shows exactly when it is off |
| OverlaySettings.OverlaySettings.SetAutoDetection | src/components/OverlaySettings.tsx:166-168 | the auto-detection switch takes the new value |
| OverlaySettings.OverlaySettings.OffersGrant | src/components/OverlaySettings.tsx:139-149 | each of the four permissions offers Grant exactly while its flag is false |
| ProtectedRoute.Guard | src/components/auth/ProtectedRoute.tsx:4-9 | nothing while loading; a replacing redirect to "/auth/sign-in" without a user; the children with one |
| ProtectedRoute.GuardDependsOnPresenceOnly | src/components/auth/ProtectedRoute.tsx:4-9 | the outcome depends only on whether some user is signed in |

## Left out

- Number formatting: the descriptor is exact. The fixed-decimal rendering to text (three places, one for hue) and floating-point rounding are not modelled.
- Session descriptions: SDP contents are an abstract id. Provisional answers are not modelled, since the app never produces one. ICE gathering, media transport and the closed-connection signalling state are also left out.
- WebRtc.AcceptOffer: no implicit rollback. In WebRTC 1.0, an offer set remotely while a local offer is pending (both users pressed Start Call) first rolls the local offer back and is then answered. The model refuses that offer instead, because it keeps one local description and not the pending/current pair a rollback restores.
- CallPage.CallPage.OnSignal: for the same reason, an incoming offer while this side's own offer is pending is not answered; the app would answer it after the implicit rollback.
- Pixels: the canvas, the video elements and DOM rendering are not modelled. A draw's success is a parameter of `Pipeline.Tick`, and `captureStream` is a fresh stream id.
- Offscreen elements: the pipeline's reuse of one canvas and one video element across runs is not modelled. Each run is a fresh `Pipeline`.
- Database: the Supabase database, its `ilike` matching and its errors' messages are parameters. `Contacts.ContactsPage.Search`'s response is the database reply.
- The `or` filter on loaded contacts is assumed to be applied by the database.
- Asynchrony: async resolution order and overlapping requests are not modelled. Each operation runs to completion, so concurrent `search` calls can finish out of order in the app but not in the model.
- Toasts: toast texts are recorded as notice values, not strings.
- Display names: the rendering of display names and usernames on a result card is left out.
- ColorGrading.Merge: does not model clearing a field. A patch field explicitly set to `undefined`, which clears the value in the app, is represented as absent.
- `useColorGrading`: its throw outside the provider is left out.
- Document titles, icons and the static supported-apps list of the overlay panel are left out.
- Filter download toasts are left out.
- The audio track: in the app, the processed stream carries only the canvas's video track, so the camera's audio is never sent. The pipeline's output is modelled as the one liveness flag of that track, and `CallPage.Stream` takes whatever tracks it is given, so the model does not show that the audio is dropped.
- CallPage.CallPage.OnSignal: a failing `acceptOffer`/`acceptAnswer` rejects inside an async handler in the app, as an unhandled rejection. The model records that the state stays as the failed step left it, but does not model the rejection itself.
