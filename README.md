# Stygian chat client hooks, modelled in Dafny

This project models the two pieces of client-side logic of the Stygian chat
page that make decisions:

- **The chat input hook** (`Hooks.ChatInput`). When it is mounted it focuses the
  message field and installs an `onkeydown` handler. On a key press the
  handler checks one guard: the key is `"Enter"` and the draft is at least
  200 UTF-16 code units long. When the guard holds, it dispatches a bubbling, cancelable
  `submit` event to the field's form and then clears the draft to `""`.
  Otherwise it does nothing, and it never calls `preventDefault`. Its sibling
  `Hooks.ChatScreen` keeps the transcript scrolled to the bottom on mount and
  on every update.
- **Deferred notification delivery** (`pushNotification`). While the document
  is visible, a call shows nothing and returns a promise already fulfilled
  with `undefined`. While the document is hidden, a call shows one
  notification at once. Its title is `title`, or `"Stygian - Nuova notifica"`
  when `title` is falsy, and its icon is `/favicon.ico`. The call then registers
  a `visibilitychange` listener whose promise is fulfilled with that
  notification on the first event that reports the document visible.
  `askNotificationPermission` requests permission only when the browser
  offers `Notification`, and otherwise logs that it is unsupported.

`chat_hooks.dfy` (module `ChatHooks`) holds the input and screen hooks.
`push_notifications.dfy` (module `PushNotifications`) holds the notification
logic. In each module, pure functions (`OnKeyDown`, `Push`,
`OnVisibilityChange`) specify one step. Classes (`ChatInput`, `ChatScreen`,
`Document`, `Window`) hold the element and document state that the source
mutates in place. Three methods are proved to perform exactly the step a
function describes: `ChatInput.KeyDown` (`OnKeyDown`),
`Document.PushNotification` (`Push`) and `Document.DispatchVisibilityChange`
(`OnVisibilityChange`). The other methods (`ChatInput.Mounted`,
`ChatScreen.Mounted`, `ChatScreen.Updated`, `Window.AskNotificationPermission`)
state their effect directly in their postconditions and frames. Lemmas over
sequences of steps (`Run`) state what the source promises across a whole
session.

Facts about the code that the model keeps:
- The draft's length is JavaScript's `value.length`, counted in UTF-16 code
  units (`Utf16Length`), so a draft of 100 emoji already reaches 200.
- The guard at `hooks/chat-hooks.js:20` is the only condition: Enter and at
  least 200 code units. There are no prefix shortcuts, and a short draft does
  not block the Enter key.
- The comment at `hooks/chat-hooks.js:19` says "not greater than 200", but the
  code submits at exactly 200 (`ThresholdBoundary`).
- Every hidden-time call registers its own listener, so one visible event
  fulfils every pending call (`OnVisibilityChange`).
- `pushNotification` does not check for `Notification` before building one
  (see "Left out").

## Model

| member | source | states |
|---|---|---|
| `ChatHooks.OnKeyDown` | apps/stygian_web/assets/js/hooks/chat-hooks.js:18-29 | exactly one event is added to the form log iff the key is `"Enter"`, the draft has at least 200 UTF-16 code units and the field has a form; that event is a bubbling, cancelable `submit` and the form sees the draft as it was before the clear; after it the value is `""` whatever the form wrote meanwhile; with no form the handler throws and the field is unchanged; otherwise the field is unchanged; `preventDefault` is never called |
| `ChatHooks.Submits` | apps/stygian_web/assets/js/hooks/chat-hooks.js:20 | the guard holds only for `"Enter"` and a draft of at least 100 characters; for text in the Basic Multilingual Plane it holds exactly for `"Enter"` and at least 200 characters |
| `ChatHooks.ClearIgnoresForm` | apps/stygian_web/assets/js/hooks/chat-hooks.js:23-27 | whatever the form's listeners write to the field during the dispatch, the effect of the key press is the same, because the clear comes after it |
| `ChatHooks.ThresholdBoundary` | apps/stygian_web/assets/js/hooks/chat-hooks.js:19-20 | the threshold is inclusive: Enter on a draft of 199 code units changes nothing, on one of 200 it submits and clears |
| `ChatHooks.Utf16Length` | apps/stygian_web/assets/js/hooks/chat-hooks.js:20 | `value.length` counts UTF-16 code units: between one and two per character, exactly one per character when all lie in the Basic Multilingual Plane and exactly two when none do |
| `ChatHooks.AstralDraftSubmits` | apps/stygian_web/assets/js/hooks/chat-hooks.js:20-27 | a draft of 100 characters outside the Basic Multilingual Plane (emoji) is 200 code units long, so Enter submits it and clears the field |
| `ChatHooks.NoImmediateResubmit` | apps/stygian_web/assets/js/hooks/chat-hooks.js:20-27 | an Enter pressed right after a submitting Enter does not submit again, because the cleared value is too short |
| `ChatHooks.RunOnlySubmits` | apps/stygian_web/assets/js/hooks/chat-hooks.js:20-23 | over any session of edits and key presses the form log only grows, and every event added to it is a bubbling, cancelable `submit` carrying a draft of at least 200 code units |
| `ChatHooks.EachDraftSubmittedOnce` | apps/stygian_web/assets/js/hooks/chat-hooks.js:20-27 | over any session, submissions plus the draft still waiting never exceed the long drafts the user produced, so no draft is submitted twice |
| `ChatHooks.ChatInput.Mounted` | apps/stygian_web/assets/js/hooks/chat-hooks.js:16-18 | mounting focuses the element and installs the keydown handler, and changes neither the value nor the form log |
| `ChatHooks.ChatInput.KeyDown` | apps/stygian_web/assets/js/hooks/chat-hooks.js:18-29 | a key press on the element does exactly what `OnKeyDown` describes once the handler is installed (dispatch, the form's write, then the clear; or the throw when there is no form), and nothing before; it never prevents the default action |
| `ChatHooks.ChatScreen.Mounted` | apps/stygian_web/assets/js/hooks/chat-hooks.js:7-9 | after mounting, `scrollTop == scrollHeight`, and no other field changes |
| `ChatHooks.ChatScreen.Updated` | apps/stygian_web/assets/js/hooks/chat-hooks.js:10-12 | after each update, `scrollTop == scrollHeight`, and no other field changes |
| `PushNotifications.NotificationTitle` | apps/stygian_web/assets/js/push-notifications.js:29 | the title is never empty: a non-empty `title` is used as given, and an absent or empty one falls back to `"Stygian - Nuova notifica"` |
| `PushNotifications.Push` | apps/stygian_web/assets/js/push-notifications.js:26-47 | while visible, nothing is shown or registered and the promise is already fulfilled with `undefined`; while hidden, exactly one notification with the given body, the defaulted title and icon `/favicon.ico` is shown, and one pending listener for that notification is appended; nothing earlier changes |
| `PushNotifications.Listen` | apps/stygian_web/assets/js/push-notifications.js:37-41 | one listener run keeps its notification; on a visible event it fulfils a pending promise with that notification; on an event that is not visible, or once the promise is settled, it changes nothing |
| `PushNotifications.RunListeners` | apps/stygian_web/assets/js/push-notifications.js:37-41 | every registered listener runs on the event; each pending one is fulfilled with its own notification when the document is visible, and every other one is left as it was |
| `PushNotifications.OnVisibilityChange` | apps/stygian_web/assets/js/push-notifications.js:37-41 | an event that is not visible changes no promise; every listener keeps its notification; a visible event leaves no promise pending, because all calls made while hidden are fulfilled together; settled promises never change |
| `PushNotifications.ListenerFate` | apps/stygian_web/assets/js/push-notifications.js:36-42 | over any sequence of calls and events, a listener stays at its place; its promise stays pending until an event reports the document visible, is then fulfilled with its own notification, and is never changed again |
| `PushNotifications.HiddenPushResolvesOnVisible` | apps/stygian_web/assets/js/push-notifications.js:27-42 | the promise of a call made while hidden is pending through any events that are not visible, and fulfilled with the notification it showed from the first visible event on |
| `PushNotifications.VisiblePushIsNoop` | apps/stygian_web/assets/js/push-notifications.js:44-46 | a call made while visible changes nothing, and its promise is fulfilled with `undefined` whatever happens afterwards |
| `PushNotifications.NeverRejects` | apps/stygian_web/assets/js/push-notifications.js:36-42 | no promise handed out is ever rejected, over any sequence of calls and events |
| `PushNotifications.Document.PushNotification` | apps/stygian_web/assets/js/push-notifications.js:26-47 | the document's new state and the returned promise are exactly those of `Push` |
| `PushNotifications.Document.DispatchVisibilityChange` | apps/stygian_web/assets/js/push-notifications.js:37-41 | the document's new state is exactly that of `OnVisibilityChange` |
| `PushNotifications.Window.AskNotificationPermission` | apps/stygian_web/assets/js/push-notifications.js:11-17 | permission is requested once iff `"Notification" in window`; otherwise the only effect is the log line `This browser does not support notifications.` |

## Left out

- The browser itself is not modelled. That covers real DOM event propagation, the form's submission and the server round trip it starts. Dispatch is an entry appended to the form's event log, with the draft the form's listeners would read.
- The key's default action (a newline inserted into the field after the handler returns) is not modelled. The value in the model is the one the handler leaves.
- User typing is modelled only as the `Edit` action of the session lemmas. The browser's text entry is not part of the hooks.
- `ChatHooks.ChatScreen.Mounted` and `ChatHooks.ChatScreen.Updated` record the assignment as written. The browser's clamping of `scrollTop` to `scrollHeight - clientHeight` is not modelled.
- When the field has no form, the handler throws a TypeError. The model records that it threw and left the field unchanged, but not how the browser reports the uncaught error.
- Strings are sequences of Unicode scalar values, so a JavaScript string holding a lone surrogate cannot be represented.
- `askNotificationPermission` is modelled only in its capability branch. The permission prompt's asynchronous outcome and its `console.debug` line (push-notifications.js:7-9,12-13) are left out, because they only log.
- Browser `Notification` construction and how the operating system displays it are not modelled. A notification is the record of title, body and icon it is built from.
- Promise scheduling and microtasks are not modelled. A promise is a settlement state that the listener updates when the event is delivered.
- The `title` argument is modelled as an optional string. JavaScript truthiness of non-string values (numbers, objects) is not modelled.
- The call `new Notification(...)` throws when the browser has no `Notification`. That failure in the hidden branch is not modelled.
- `apps/stygian_web/assets/js/rlyeian-text.js` and `apps/stygian_web/assets/tailwind.config.js` are not part of this model. The first is a random decorative animation and the second is build configuration.
