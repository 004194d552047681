/**
 * The light/timer state of the Blink(1) plugin (client/blink1.py) as a value:
 * the plugin fields `_color`, `_gsrc_id` and `_blink1`, together with the GLib
 * timeout sources the plugin has registered. Each `After...` function gives the
 * state that one operation of the plugin leaves behind; the class in
 * Blink1Plugin is proved to follow them step for step.
 */
module Blink1Light {
  import opened Wrappers
  import opened Blink1Events

  /** Duration of every fade, in milliseconds. */
  const FadeMillis: nat := 375

  /** Delay before the auto-off timeout fires, in milliseconds. */
  const OffDelayMillis: nat := 1625

  /** The plugin methods a GLib timeout source can be registered with. */
  datatype Callback = BlinkOff | BlinkOffTimeout

  /** How the device connection attempt in `initialize` ends. */
  datatype Connection = Connected | UsbFailure | NotFound

  /**
   * color: `_color`; gsrcId: `_gsrc_id`; timers: the live GLib timeout sources
   * of the plugin with the callback each one runs; nextId: the id
   * `GLib.timeout_add` hands out next; open: `_blink1` holds an open device;
   * staleRemove: some `GLib.source_remove` was given an id that was not live.
   */
  datatype State = State(
    color: Option<string>,
    gsrcId: Option<nat>,
    timers: map<nat, Callback>,
    nextId: nat,
    open: bool,
    staleRemove: bool)

  /** The plugin before `initialize`: no device, no colour, no timeout source. */
  const Initial: State := State(None, None, map[], 1, false, false)

  /**
   * Every live source was handed out by `timeout_add`, and the only source that
   * can be live is the one `_gsrc_id` records.
   */
  predicate Inv(s: State)
  {
    (forall id :: id in s.timers ==> id < s.nextId) &&
    (s.gsrcId.Some? ==> s.gsrcId.value < s.nextId) &&
    (forall id :: id in s.timers ==> s.gsrcId == Some(id))
  }

  /** Every live source runs `_blink1_off`, the callback registered in `_blink1_set_color`. */
  predicate OnlyBlinkOffRegistered(s: State)
  {
    forall id :: id in s.timers ==> s.timers[id] == BlinkOff
  }

  /** `GLib.source_remove(id)`: kills a live source; on a dead id nothing changes but the mistake is recorded. */
  function AfterSourceRemove(s: State, id: nat): (r: State)
    ensures r.timers.Keys == s.timers.Keys - {id}
    ensures forall k :: k in r.timers ==> r.timers[k] == s.timers[k]
    ensures r.staleRemove <==> s.staleRemove || id !in s.timers
    ensures r.color == s.color && r.gsrcId == s.gsrcId && r.nextId == s.nextId && r.open == s.open
  {
    if id in s.timers then s.(timers := s.timers - {id}) else s.(staleRemove := true)
  }

  /** `GLib.timeout_add(OffDelayMillis, cb)`: a fresh source, numbered `s.nextId`, becomes live. */
  function AfterTimeoutAdd(s: State, cb: Callback): (r: State)
    ensures Inv(s) ==> s.nextId !in s.timers
    ensures r.timers == s.timers[s.nextId := cb] && r.nextId > s.nextId
    ensures r.color == s.color && r.gsrcId == s.gsrcId && r.open == s.open && r.staleRemove == s.staleRemove
  {
    s.(timers := s.timers[s.nextId := cb], nextId := s.nextId + 1)
  }

  /**
   * `_blink1_set_color(c)`. A USB error in `fade_to_color` is logged and
   * changes nothing. Otherwise a colour other than black first removes the
   * recorded source (if any) and records a fresh one running `_blink1_off`;
   * black touches no source. Either way `_color` becomes `c`.
   */
  function AfterSetColor(s: State, c: string, usbOk: bool): (r: State)
    requires s.open
    ensures r.open && r.nextId >= s.nextId
  {
    if !usbOk then s
    else if c != Black then
      var s1 := if s.gsrcId.Some? then AfterSourceRemove(s, s.gsrcId.value) else s;
      AfterTimeoutAdd(s1, BlinkOff).(gsrcId := Some(s1.nextId), color := Some(c))
    else
      s.(color := Some(c))
  }

  /** `_blink1_off`: set black, then forget the colour whatever the USB outcome. */
  function AfterOff(s: State, usbOk: bool): (r: State)
    requires s.open
    ensures r.open && r.nextId >= s.nextId
  {
    AfterSetColor(s, Black, usbOk).(color := None)
  }

  /** `_blink1_off_timeout`: forget the recorded source, then `_blink1_off`. */
  function AfterOffTimeout(s: State, usbOk: bool): (r: State)
    requires s.open
    ensures r == s.(gsrcId := None, color := None)
  {
    AfterOff(s.(gsrcId := None), usbOk)
  }

  /**
   * The GLib main loop fires the live source `id`. Both callbacks return a
   * false value, so the source is destroyed; neither adds or removes a source,
   * so destroying it before the callback runs gives the same state. With the
   * device already closed (`_blink1` is None) the callback stops at an
   * AttributeError before touching the light or `_color`.
   */
  function AfterFire(s: State, id: nat, usbOk: bool): (r: State)
    requires id in s.timers
    ensures r.open == s.open && id !in r.timers
  {
    var s1 := s.(timers := s.timers - {id});
    match s.timers[id]
    case BlinkOff => if s.open then AfterOff(s1, usbOk) else s1
    case BlinkOffTimeout => if s.open then AfterOffTimeout(s1, usbOk) else s1.(gsrcId := None)
  }

  /**
   * `initialize`: `_color` is cleared first; a failed connection stops there.
   * A connected device is switched off (a USB error there is swallowed by
   * `_blink1_set_color`) and `_gsrc_id` is cleared.
   */
  function AfterInitialize(s: State, conn: Connection, usbOk: bool): (r: State)
    ensures r.color == None
    ensures conn == Connected ==> r == s.(color := None, gsrcId := None, open := true)
    ensures conn != Connected ==> r == s.(color := None)
  {
    var s1 := s.(color := None);
    if conn != Connected then s1
    else AfterOff(s1.(open := true), usbOk).(gsrcId := None)
  }

  /** `finalize`: switch off, close the device and drop it; a failing `close` leaves it set. */
  function AfterFinalize(s: State, usbOk: bool, closeOk: bool): (r: State)
    requires s.open
    ensures r == s.(color := None, open := !closeOk)
  {
    var s1 := AfterOff(s, usbOk);
    if closeOk then s1.(open := false) else s1
  }

  /** An event delivered to `signal_db_credentials` or `signal_db_visits`. */
  function AfterEvent(s: State, cfg: Config, table: Table, eventType: string, rows: seq<Row>,
                      campaign: string, usbOk: bool): (r: State)
    requires s.open
    ensures r.open
  {
    match Dispatch(cfg, table, eventType, rows, campaign)
    case None => s
    case Some(c) => AfterSetColor(s, c, usbOk)
  }

  // ---------------------------------------------------------------------------
  // Properties of single operations

  /** Only the source `_gsrc_id` records can be live, so at most one source is ever live. */
  lemma AtMostOneTimer(s: State)
    requires Inv(s)
    ensures |s.timers.Keys| <= 1
  {
    if s.gsrcId.None? {
      assert s.timers.Keys == {};
    } else {
      assert s.timers.Keys == {} || s.timers.Keys == {s.gsrcId.value};
    }
  }

  /** A USB error in `fade_to_color` leaves colour, recorded source and live sources as they were. */
  lemma UsbErrorChangesNothing(s: State, c: string)
    requires s.open
    ensures AfterSetColor(s, c, false) == s
  {
  }

  /**
   * A successful flash removes the recorded source before adding its own; the
   * new source is then the only live one and the recorded one. The removal is
   * stale exactly when the recorded source was no longer live.
   */
  lemma FlashReplacesRecordedSource(s: State, c: string)
    requires Inv(s) && s.open && c != Black
    ensures var r := AfterSetColor(s, c, true);
      r.color == Some(c) && r.gsrcId == Some(s.nextId) &&
      r.timers == map[s.nextId := BlinkOff] && r.nextId == s.nextId + 1 &&
      (r.staleRemove <==> s.staleRemove || (s.gsrcId.Some? && s.gsrcId.value !in s.timers))
  {

  }

  /** Setting black, successful or not, neither removes nor adds a source. */
  lemma BlackTouchesNoSource(s: State, usbOk: bool)
    requires s.open
    ensures AfterSetColor(s, Black, usbOk) == if usbOk then s.(color := Some(Black)) else s
  {
  }

  /**
   * `_blink1_off` leaves `_color` None whatever the USB outcome, and does not
   * cancel a pending auto-off source.
   */
  lemma OffForgetsColorOnly(s: State, usbOk: bool)
    requires s.open
    ensures AfterOff(s, usbOk) == s.(color := None)
  {
  }

  /** Every operation keeps Inv and registers nothing but `_blink1_off`. */
  lemma SetColorKeepsInv(s: State, c: string, usbOk: bool)
    requires s.open && Inv(s)
    ensures Inv(AfterSetColor(s, c, usbOk))
    ensures OnlyBlinkOffRegistered(s) ==> OnlyBlinkOffRegistered(AfterSetColor(s, c, usbOk))
  {

  }

  lemma FireKeepsInv(s: State, id: nat, usbOk: bool)
    requires Inv(s) && id in s.timers
    ensures Inv(AfterFire(s, id, usbOk))
    ensures OnlyBlinkOffRegistered(s) ==> OnlyBlinkOffRegistered(AfterFire(s, id, usbOk))
  {

  }

  // ---------------------------------------------------------------------------
  // The three behaviours of the code that differ from a clean debouncer

  /**
   * The source registered in `_blink1_set_color` runs `_blink1_off`, which does
   * not clear `_gsrc_id`: once it has fired no source is live, yet `_gsrc_id`
   * still names the dead one.
   */
  lemma AutoOffLeavesStaleId(s: State, id: nat, usbOk: bool)
    requires Inv(s) && OnlyBlinkOffRegistered(s) && id in s.timers
    ensures var r := AfterFire(s, id, usbOk);
      r.gsrcId == Some(id) && r.timers == map[] && (s.open ==> r.color == None)
  {

  }

  /** Hence the next flash after an auto-off hands `source_remove` a dead id. */
  lemma NextFlashRemovesDeadSource(s: State, id: nat, usbOk: bool, c: string)
    requires Inv(s) && OnlyBlinkOffRegistered(s) && s.open && id in s.timers && c != Black
    ensures AfterSetColor(AfterFire(s, id, usbOk), c, true).staleRemove
  {

  }

  /** Had `_blink1_off_timeout` been registered instead, that removal would not happen. */
  lemma OffTimeoutCallbackAvoidsDeadRemove(s: State, id: nat, usbOk: bool, c: string)
    requires Inv(s) && s.open && id in s.timers && s.timers[id] == BlinkOffTimeout && c != Black
    ensures AfterSetColor(AfterFire(s, id, usbOk), c, true).staleRemove == s.staleRemove
  {

  }

  /** Switching off right after a flash leaves the flash's auto-off source live. */
  lemma OffAfterFlashKeepsTimer(s: State, c: string, usbOk: bool)
    requires Inv(s) && s.open && c != Black
    ensures var r := AfterOff(AfterSetColor(s, c, true), usbOk);
      r.color == None && r.timers == map[s.nextId := BlinkOff] && r.gsrcId == Some(s.nextId)
  {

  }

  /**
   * `finalize` cancels no source: a flash followed by a successful finalize
   * leaves its source live with the device gone, and when it fires the
   * callback fails on the missing device, changing nothing else.
   */
  lemma FinalizeLeavesPendingTimer(s: State, c: string, usbOk: bool, fireOk: bool)
    requires Inv(s) && s.open && c != Black
    ensures var r := AfterFinalize(AfterSetColor(s, c, true), usbOk, true);
      !r.open && r.color == None && r.timers == map[s.nextId := BlinkOff] &&
      AfterFire(r, s.nextId, fireOk) == r.(timers := map[])
  {

  }

  // ---------------------------------------------------------------------------
  // Lifecycle and routing

  /** Initializing a plugin with no live source establishes Inv. */
  lemma InitializeEstablishesInv(s: State, conn: Connection, usbOk: bool)
    requires s.timers == map[] && Inv(s)
    ensures Inv(AfterInitialize(s, conn, usbOk))
    ensures OnlyBlinkOffRegistered(AfterInitialize(s, conn, usbOk))
  {
  }

  /** An event that is not an insertion, or a filtered batch with no row of the campaign, changes nothing. */
  lemma IgnoredEventChangesNothing(s: State, cfg: Config, table: Table, eventType: string,
                                   rows: seq<Row>, campaign: string, usbOk: bool)
    requires s.open
    requires eventType != Inserted ||
             (cfg.filterCampaigns && forall i :: 0 <= i < |rows| ==> rows[i].campaignId != campaign)
    ensures AfterEvent(s, cfg, table, eventType, rows, campaign, usbOk) == s
  {
  }

  /**
   * End to end with the default options: a visit of the active campaign lights
   * the device yellow and arms one auto-off source, and when that fires the
   * colour is forgotten.
   */
  lemma VisitFlashesThenTurnsOff(s: State, visit: string, campaign: string)
    requires Inv(s) && s.open
    ensures var r := AfterEvent(s, DefaultConfig, DbVisits, Inserted, [Row(visit, campaign)], campaign, true);
      r.color == Some("yellow") && r.gsrcId == Some(s.nextId) && r.timers == map[s.nextId := BlinkOff] &&
      AfterFire(r, s.nextId, true).color == None
  {

  }

  // ---------------------------------------------------------------------------
  // Any sequence of operations on an open device

  /** One thing that can happen while the device is open. */
  datatype Event =
    | Flash(color: string, usbOk: bool)   // `_blink1_set_color`
    | SwitchOff(usbOk: bool)              // `_blink1_off`
    | Expire(id: nat, usbOk: bool)        // the main loop fires source `id`, if it is live

  /** The state one event leaves; firing a source that is not live is no event. */
  function AfterStep(s: State, e: Event): (r: State)
    requires s.open
    ensures r.open
  {
    match e
    case Flash(c, ok) => AfterSetColor(s, c, ok)
    case SwitchOff(ok) => AfterOff(s, ok)
    case Expire(id, ok) => if id in s.timers then AfterFire(s, id, ok) else s
  }

  /** The state a sequence of events leaves, applied first to last. */
  function AfterRun(s: State, es: seq<Event>): (r: State)
    requires s.open
    decreases |es|
  {
    if es == [] then s else AfterRun(AfterStep(s, es[0]), es[1..])
  }

  /**
   * However flashes, switch-offs and firings interleave, the single recorded
   * source is the only one that can be live, and it always runs `_blink1_off`.
   */
  lemma {:induction false} RunKeepsInv(s: State, es: seq<Event>)
    requires s.open && Inv(s) && OnlyBlinkOffRegistered(s)
    ensures Inv(AfterRun(s, es)) && OnlyBlinkOffRegistered(AfterRun(s, es))
    ensures |AfterRun(s, es).timers.Keys| <= 1
    decreases |es|
  {
    if es == [] {
      AtMostOneTimer(s);
    } else {
      match es[0] {
        case Flash(c, ok) => SetColorKeepsInv(s, c, ok);
        case SwitchOff(ok) => SetColorKeepsInv(s, Black, ok);
        case Expire(id, ok) => if id in s.timers { FireKeepsInv(s, id, ok); }
      }
      RunKeepsInv(AfterStep(s, es[0]), es[1..]);
    }
  }
}
