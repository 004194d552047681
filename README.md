# Blink(1) notification controller

A Dafny model of the Blink(1) notification plugin of the King Phisher client
(`client/blink1.py`). The plugin listens for two server events, new
credentials (`db-credentials`) and new visits (`db-visits`). It keeps the
batches that concern the active campaign and flashes a USB Blink(1) light in
the colour configured for that event. An auto-off GLib timeout switches the
light back to black 1625 ms later.

The project has four modules:

- `Wrappers` (`wrappers.dfy`): `Option`, for Python's value-or-`None` fields.
- `Blink1Events` (`events.dfy`): the colour palette `COLORS`, the three plugin
  options and their defaults, the campaign filter of `_signal_db` (the
  `all(...)` over the rows), and the routing of the two event handlers. All of
  it is pure functions.
- `Blink1Light` (`light.dfy`): the plugin's light/timer state as a value
  `State`. It holds `_color`, `_gsrc_id`, whether `_blink1` is open, and the
  live GLib timeout sources with the callback each one runs. It also holds a
  model-only flag set when `GLib.source_remove` is given a dead id. One
  `After...` function per operation gives the state it leaves. `Inv` says
  that the only source that can be live is the one `_gsrc_id` records. The
  lemmas prove the properties of the code.
- `Blink1Plugin` (`plugin.dfy`): the class `Plugin` with those fields. Its
  methods change them step by step as the Python methods do. `SetColor`,
  `Off`, `Fire`, `Initialize` and `Finalize` are proved to keep `Inv` and to
  leave exactly the state the matching `After...` function gives. The three
  signal handlers also keep `Inv`: `SignalDb` leaves `AfterSetColor` of the old
  state when `Relevant` holds and the old state otherwise, and the two event
  handlers leave `AfterEvent`. `SourceRemove` and `TimeoutAdd` stand for the
  GLib calls; they follow `AfterSourceRemove` and `AfterTimeoutAdd` but do not
  promise `Inv`, which `TimeoutAdd` breaks for a moment inside `SetColor`
  until the new id is recorded. The client methods `VisitThenCredential` and
  `FlashThenFinalize` drive whole scenarios through the class; the assertions
  they make about the resulting states are proved from the method contracts.

GLib timeouts are tokens. `timeout_add` hands out a fresh id, `source_remove`
kills a live id, and the main loop firing a source is the explicit step
`Fire(id)`. The USB outcome of `fade_to_color` and `close` is a boolean
parameter, so both the success path and the `USBError` path are modelled.

The model follows the code. In three places the code is not a clean debouncer,
and the model proves each of these states reachable:

- The source registered at line 91 runs `_blink1_off`, not
  `_blink1_off_timeout`, so `_gsrc_id` is not cleared when it fires. The next
  flash then calls `source_remove` on a dead id (`AutoOffLeavesStaleId`,
  `NextFlashRemovesDeadSource`). Had `_blink1_off_timeout` been registered,
  this would not happen (`OffTimeoutCallbackAvoidsDeadRemove`).
- Setting black, and so `_blink1_off`, cancels no pending source
  (`BlackTouchesNoSource`, `OffAfterFlashKeepsTimer`).
- `finalize` cancels no pending source. When that source later fires, its
  callback fails with `_blink1` gone (`FinalizeLeavesPendingTimer`, `AfterFinalize`,
  `Blink1Plugin.FlashThenFinalize`).

Further facts of `client/blink1.py` that the model keeps:

- with filtering off, an empty batch still flashes;
- only the row's campaign id is converted with `str()`, and the active
  campaign id is compared as stored;
- a `USBError` from the first fade in `initialize` is swallowed by
  `_blink1_set_color`, so `initialize` still succeeds. Only a `USBError` from
  opening the device makes it fail.

## Model

| member | source | states |
|---|---|---|
| `Blink1Events.NoneMatch` | client/blink1.py:120 | true exactly when no row's stringified campaign id equals the active campaign |
| `Blink1Events.Relevant` | client/blink1.py:118-122 | `_signal_db` flashes iff filtering is off (even for an empty batch) or some row belongs to the active campaign |
| `Blink1Events.Dispatch` | client/blink1.py:118-130 | a handler flashes iff the sub-type is "inserted" and the batch is relevant; credentials use `color_credentials`, visits `color_visits`; with valid options the colour is in the palette and never black |
| `Blink1Events.FlashColor` | client/blink1.py:124-130 | with valid options the colour looked up for either table is a palette choice and never black |
| `Blink1Events.DefaultConfigValid` | client/blink1.py:15-45 | the defaults (yellow for visits, red for credentials) are palette choices, and black is not offered |
| `Blink1Events.EmptyBatch` | client/blink1.py:119-122 | an empty "inserted" batch flashes only when filtering is off |
| `Blink1Events.RelevantAppend` | client/blink1.py:120 | a joined batch is relevant iff one of its parts is |
| `Blink1Light.AfterSourceRemove` | client/blink1.py:89-90 | `source_remove` kills exactly the given id and keeps the other sources; a dead id is recorded as a stale removal |
| `Blink1Light.AfterTimeoutAdd` | client/blink1.py:91 | `timeout_add` makes one fresh id live with its callback, and never reuses a live id |
| `Blink1Light.AfterSetColor` | client/blink1.py:82-92 | `_blink1_set_color` keeps the device open and never moves the id counter back |
| `Blink1Light.AfterOff` | client/blink1.py:94-96 | `_blink1_off` keeps the device open and never moves the id counter back |
| `Blink1Light.AfterFire` | client/blink1.py:91-101 | a fired source is no longer live afterwards, and firing does not change whether the device is open |
| `Blink1Light.AfterEvent` | client/blink1.py:124-130 | handling an event keeps the device open |
| `Blink1Light.AtMostOneTimer` | client/blink1.py:88-91 | under the invariant at most one auto-off source is live |
| `Blink1Light.UsbErrorChangesNothing` | client/blink1.py:83-87 | a `USBError` in `fade_to_color` leaves `_color`, `_gsrc_id` and the live sources unchanged |
| `Blink1Light.FlashReplacesRecordedSource` | client/blink1.py:88-92 | a successful non-black flash sets `_color`, removes the recorded source and records a fresh one as the only live source; the removal is stale iff the recorded source was dead |
| `Blink1Light.BlackTouchesNoSource` | client/blink1.py:88 | setting black neither removes nor adds a source; on success it only sets `_color` |
| `Blink1Light.OffForgetsColorOnly` | client/blink1.py:94-96 | `_blink1_off` leaves `_color` None whatever the USB outcome and changes nothing else |
| `Blink1Light.AfterOffTimeout` | client/blink1.py:98-101 | `_blink1_off_timeout` clears `_gsrc_id` and `_color`, whatever the USB outcome, and touches no source |
| `Blink1Light.SetColorKeepsInv` | client/blink1.py:82-92 | `_blink1_set_color` keeps the invariant and registers only `_blink1_off` |
| `Blink1Light.FireKeepsInv` | client/blink1.py:91 | firing a source keeps the invariant and the only-`_blink1_off` registration |
| `Blink1Light.AutoOffLeavesStaleId` | client/blink1.py:91 | after the auto-off fires no source is live, `_color` is None, yet `_gsrc_id` still names the dead source |
| `Blink1Light.NextFlashRemovesDeadSource` | client/blink1.py:89-91 | the first flash after an auto-off calls `source_remove` on a dead id |
| `Blink1Light.OffTimeoutCallbackAvoidsDeadRemove` | client/blink1.py:98-101 | had `_blink1_off_timeout` fired instead, the next flash would remove no dead id |
| `Blink1Light.OffAfterFlashKeepsTimer` | client/blink1.py:88-96 | `_blink1_off` right after a flash leaves that flash's source live and recorded |
| `Blink1Light.FinalizeLeavesPendingTimer` | client/blink1.py:77-80 | `finalize` after a flash closes the device but leaves its source live; when it fires the callback fails and changes nothing else |
| `Blink1Light.AfterFinalize` | client/blink1.py:77-80 | in every state `finalize` only clears `_color` and, when `close` succeeds, `_blink1`; live sources and `_gsrc_id` are kept |
| `Blink1Light.AfterInitialize` | client/blink1.py:51-75 | `initialize` clears `_color`; when connected it opens the device and clears `_gsrc_id` even if the first fade fails; a failed connection changes nothing else |
| `Blink1Light.InitializeEstablishesInv` | client/blink1.py:51-75 | `initialize` on a plugin with no live source establishes the invariant |
| `Blink1Light.IgnoredEventChangesNothing` | client/blink1.py:119-130 | a non-"inserted" event, or a filtered batch with no row of the campaign, changes nothing |
| `Blink1Light.VisitFlashesThenTurnsOff` | client/blink1.py:32-38 | with the default options a matching visit lights yellow with one armed source, and its firing clears `_color` |
| `Blink1Light.RunKeepsInv` | client/blink1.py:82-101 | any interleaving of flashes, switch-offs and firings keeps the invariant, registers only `_blink1_off` and leaves at most one live source |
| `Blink1Plugin.Plugin.SourceRemove` | client/blink1.py:90 | the method's new state is `AfterSourceRemove` of the old one |
| `Blink1Plugin.Plugin.TimeoutAdd` | client/blink1.py:91 | returns the fresh id; the new state is `AfterTimeoutAdd` of the old one |
| `Blink1Plugin.Plugin.SetColor` | client/blink1.py:82-92 | keeps the invariant; the new state is `AfterSetColor` of the old one |
| `Blink1Plugin.Plugin.Off` | client/blink1.py:94-96 | keeps the invariant; the new state is `AfterOff` of the old one |
| `Blink1Plugin.Plugin.Fire` | client/blink1.py:94-101 | keeps the invariant; the new state is `AfterFire` of the old one; it raises iff the device is closed |
| `Blink1Plugin.Plugin.Initialize` | client/blink1.py:51-75 | keeps the invariant; the new state is `AfterInitialize` of the old one; it returns True iff the device connected |
| `Blink1Plugin.Plugin.Finalize` | client/blink1.py:77-80 | keeps the invariant; the new state is `AfterFinalize` of the old one; it raises iff `close` fails |
| `Blink1Plugin.Plugin.SignalDb` | client/blink1.py:118-122 | sets the colour exactly when the batch is relevant, and otherwise changes nothing |
| `Blink1Plugin.Plugin.SignalDbCredentials` | client/blink1.py:124-126 | the new state is `AfterEvent` for the credentials table |
| `Blink1Plugin.Plugin.SignalDbVisits` | client/blink1.py:128-130 | the new state is `AfterEvent` for the visits table |

## Left out

- Subscribing to server events (`_connect_server_events`, `signal_connect_server_event`, the `'server-connected'` deferral) is left out: it is host plumbing. The model only keeps its effect, which is that both handlers receive batches of rows with `id` and `campaign_id` behind an "inserted" sub-type filter.
- The error dialogs of `initialize` and the USB warning written to the log are left out. They are user-interface and logging side effects. The two failure kinds stay distinct as `UsbFailure` and `NotFound`.
- Real time is left out. The 375 ms fade and the 1625 ms delay are constants only, and a timeout fires only when `Fire` is called.
- The `blink1` and `usb.core` drivers are left out. `fade_to_color` and `close` are opaque calls whose outcome is a boolean.
- Plugin metadata (`authors`, `title`, `description`, `homepage`, `req_min_version`, `req_packages`) and the `ImportError` guard are left out.
- Python's `str()` conversion is left out: each row's campaign id is given already stringified.
- GLib's wrap-around of source ids and the sources of other code on the same main loop are left out. Ids here are unbounded and never reused.
- `Blink1Plugin.Plugin.Initialize` requires a plugin with no device and no live source. The host calls `initialize` once on a new plugin object, so calling it again after `finalize` is not modelled.
