/**
 * The Blink(1) plugin object of client/blink1.py with the fields it updates in
 * place. The GLib main loop's timeout sources belonging to the plugin are kept
 * beside them (`timers`, `nextId`), so that `GLib.timeout_add`,
 * `GLib.source_remove` and the firing of a source are steps on the same
 * object. `SetColor`, `Off`, `Fire`, `Initialize`, `Finalize` and the two
 * event handlers leave exactly the state the matching `After...` function of
 * Blink1Light gives, and `SignalDb` the state `AfterSetColor` gives when the
 * batch is `Relevant` and the old one otherwise; all of these keep Inv.
 * `SourceRemove` and `TimeoutAdd` stand for the GLib calls: they follow
 * `AfterSourceRemove` and `AfterTimeoutAdd` but promise no Inv, which
 * `TimeoutAdd` breaks inside `SetColor` until the new id is recorded.
 */
module Blink1Plugin {
  import opened Wrappers
  import opened Blink1Events
  import opened Blink1Light

  class Plugin {
    /** `_color`: the colour last set, None once switched off. */
    var color: Option<string>
    /** `_gsrc_id`: the id of the auto-off source last registered. */
    var gsrcId: Option<nat>
    /** The live GLib timeout sources of the plugin, with the method each one runs. */
    var timers: map<nat, Callback>
    /** The id `GLib.timeout_add` hands out next. */
    var nextId: nat
    /** `_blink1` holds an open device (it is None before `initialize` and after `finalize`). */
    var open: bool
    /** Some `GLib.source_remove` was given an id that was no longer live. */
    ghost var staleRemove: bool

    ghost function Snapshot(): State
      reads this
    {
      State(color, gsrcId, timers, nextId, open, staleRemove)
    }

    ghost predicate Valid()
      reads this
    {
      Inv(Snapshot())
    }

    /** A plugin object as the host creates it, before `initialize`. */
    constructor ()
      ensures Valid() && Snapshot() == Initial
    {
      color, gsrcId, timers, nextId, open := None, None, map[], 1, false;
      staleRemove := false;
    }

    /** `GLib.source_remove(id)`. */
    method SourceRemove(id: nat)
      modifies this
      ensures Snapshot() == AfterSourceRemove(old(Snapshot()), id)
    {
      if id in timers {
        timers := timers - {id};
      } else {
        staleRemove := true;
      }
    }

    /** `GLib.timeout_add(OffDelayMillis, cb)`: returns the id of the new source. */
    method TimeoutAdd(cb: Callback) returns (id: nat)
      modifies this
      ensures id == old(nextId)
      ensures Snapshot() == AfterTimeoutAdd(old(Snapshot()), cb)
    {
      id := nextId;
      timers := timers[id := cb];
      nextId := nextId + 1;
    }

    /** `_blink1_set_color(c)`; `usbOk` is whether `fade_to_color(FadeMillis, c)` succeeds. */
    method SetColor(c: string, usbOk: bool)
      requires Valid() && open
      modifies this
      ensures Valid()
      ensures Snapshot() == AfterSetColor(old(Snapshot()), c, usbOk)
    {
      if !usbOk {
        return;
      }
      if c != Black {
        if gsrcId.Some? {
          SourceRemove(gsrcId.value);
        }
        assert timers == map[];
        var id := TimeoutAdd(BlinkOff);
        gsrcId := Some(id);
      }
      color := Some(c);
    }

    /** `_blink1_off`. */
    method Off(usbOk: bool)
      requires Valid() && open
      modifies this
      ensures Valid()
      ensures Snapshot() == AfterOff(old(Snapshot()), usbOk)
    {
      SetColor(Black, usbOk);
      color := None;
    }

    /**
     * The main loop fires the live source `id`; `raised` tells whether its
     * callback ended in an AttributeError because the device is gone.
     */
    method Fire(id: nat, usbOk: bool) returns (raised: bool)
      requires Valid() && id in timers
      modifies this
      ensures Valid()
      ensures Snapshot() == AfterFire(old(Snapshot()), id, usbOk)
      ensures raised == !old(open)
    {
      var callback := timers[id];
      timers := timers - {id};
      assert timers == map[];
      match callback {
        case BlinkOff =>
        case BlinkOffTimeout =>
          gsrcId := None;
      }
      raised := !open;
      if open {
        Off(usbOk);
      }
    }

    /**
     * `initialize`, called once by the host on a new plugin; `conn` is how
     * `blink1.Blink1()` ends and `usbOk` whether the first fade succeeds.
     */
    method Initialize(conn: Connection, usbOk: bool) returns (ok: bool)
      requires Valid() && !open && timers == map[]
      modifies this
      ensures Valid()
      ensures Snapshot() == AfterInitialize(old(Snapshot()), conn, usbOk)
      ensures ok <==> conn == Connected
    {
      color := None;
      if conn != Connected {
        return false;
      }
      open := true;
      Off(usbOk);
      gsrcId := None;
      ok := true;
    }

    /**
     * `finalize`; `closeOk` is whether `close()` succeeds, and `raised`
     * whether it raised (leaving `_blink1` set).
     */
    method Finalize(usbOk: bool, closeOk: bool) returns (raised: bool)
      requires Valid() && open
      modifies this
      ensures Valid()
      ensures Snapshot() == AfterFinalize(old(Snapshot()), usbOk, closeOk)
      ensures raised == !closeOk
    {
      Off(usbOk);
      if !closeOk {
        return true;
      }
      open := false;
      raised := false;
    }

    /** `_signal_db(c, rows)`; the options and the active campaign are parameters. */
    method SignalDb(c: string, rows: seq<Row>, filterCampaigns: bool, campaign: string, usbOk: bool)
      requires Valid() && open
      modifies this
      ensures Valid()
      ensures Snapshot() ==
        if Relevant(filterCampaigns, rows, campaign) then AfterSetColor(old(Snapshot()), c, usbOk)
        else old(Snapshot())
    {
      if filterCampaigns && NoneMatch(rows, campaign) {
        return;
      }
      SetColor(c, usbOk);
    }

    /** `signal_db_credentials`, behind its "inserted" event-type filter. */
    method SignalDbCredentials(cfg: Config, eventType: string, rows: seq<Row>, campaign: string, usbOk: bool)
      requires Valid() && open
      modifies this
      ensures Valid()
      ensures Snapshot() == AfterEvent(old(Snapshot()), cfg, DbCredentials, eventType, rows, campaign, usbOk)
    {
      if eventType == Inserted {
        SignalDb(cfg.colorCredentials, rows, cfg.filterCampaigns, campaign, usbOk);
      }
    }

    /** `signal_db_visits`, behind its "inserted" event-type filter. */
    method SignalDbVisits(cfg: Config, eventType: string, rows: seq<Row>, campaign: string, usbOk: bool)
      requires Valid() && open
      modifies this
      ensures Valid()
      ensures Snapshot() == AfterEvent(old(Snapshot()), cfg, DbVisits, eventType, rows, campaign, usbOk)
    {
      if eventType == Inserted {
        SignalDb(cfg.colorVisits, rows, cfg.filterCampaigns, campaign, usbOk);
      }
    }
  }

  /**
   * A client of the class: connect, flash for a visit of the active campaign,
   * let the auto-off fire, flash for a credential. The second flash removes a
   * source that is no longer live.
   */
  method VisitThenCredential(campaign: string, visit: string, credential: string)
  {
    var p := new Plugin();
    var ok := p.Initialize(Connected, true);
    assert ok && p.open && p.color == None && p.gsrcId == None;
    p.SignalDbVisits(DefaultConfig, Inserted, [Row(visit, campaign)], campaign, true);
    assert [Row(visit, campaign)][0].campaignId == campaign;
    assert p.color == Some("yellow") && p.gsrcId.Some? && p.gsrcId.value in p.timers;
    var id := p.gsrcId.value;
    var raised := p.Fire(id, true);
    assert !raised && p.color == None && p.gsrcId == Some(id) && p.timers == map[];
    assert !p.staleRemove;
    p.SignalDbCredentials(DefaultConfig, Inserted, [Row(credential, campaign)], campaign, true);
    assert [Row(credential, campaign)][0].campaignId == campaign;
    assert p.color == Some("red") && p.staleRemove;
  }

  /**
   * A client of the class: a flash followed by `finalize` leaves the flash's
   * auto-off source live; when it fires, the callback fails on the missing
   * device and the plugin state stays as `finalize` left it.
   */
  method FlashThenFinalize(campaign: string, credential: string)
  {
    var p := new Plugin();
    var ok := p.Initialize(Connected, true);
    p.SignalDbCredentials(DefaultConfig, Inserted, [Row(credential, campaign)], campaign, true);
    assert [Row(credential, campaign)][0].campaignId == campaign;
    assert p.color == Some("red") && p.gsrcId.Some? && p.gsrcId.value in p.timers;
    var id := p.gsrcId.value;
    var raised := p.Finalize(true, true);
    assert !raised && !p.open && p.color == None && id in p.timers;
    raised := p.Fire(id, true);
    assert raised && p.color == None && p.timers == map[] && p.gsrcId == Some(id);
  }
}
