/**
 * The event side of the Blink(1) plugin (client/blink1.py): the colour palette
 * and the plugin options, the campaign filter applied to every batch of
 * inserted rows, and the routing of the two server events to a flash colour.
 * Everything here is a pure function of the configuration and the batch.
 */
module Blink1Events {
  import opened Wrappers

  /** The colours offered for a flash (COLORS); "black" is not among them. */
  const Colors: seq<string> :=
    ["blue", "cyan", "green", "orange", "pink", "purple", "red", "violet", "yellow"]

  /** The colour written to the device to switch it off. */
  const Black: string := "black"

  /** The only event sub-type the two handlers accept. */
  const Inserted: string := "inserted"

  /** The plugin options `filter_campaigns`, `color_visits` and `color_credentials`. */
  datatype Config = Config(filterCampaigns: bool, colorVisits: string, colorCredentials: string)

  /** The option defaults: current campaign only, yellow for visits, red for credentials. */
  const DefaultConfig: Config := Config(true, "yellow", "red")

  /** Both colour options hold one of the offered choices. */
  predicate ValidConfig(cfg: Config)
  {
    cfg.colorVisits in Colors && cfg.colorCredentials in Colors
  }

  /**
   * One inserted row as the server sends it: only `id` and `campaign_id` are
   * requested. The campaign id is kept in its stringified form, `str(campaign_id)`.
   */
  datatype Row = Row(id: string, campaignId: string)

  /** The two server event tables the plugin subscribes to. */
  datatype Table = DbCredentials | DbVisits

  /** The `all(str(row.campaign_id) != campaign for row in rows)` test. */
  function NoneMatch(rows: seq<Row>, campaign: string): (r: bool)
    ensures r <==> forall i :: 0 <= i < |rows| ==> rows[i].campaignId != campaign
  {
    if rows == [] then true
    else rows[0].campaignId != campaign && NoneMatch(rows[1..], campaign)
  }

  /**
   * Whether `_signal_db` goes on to flash: always when filtering is off (even
   * for an empty batch), otherwise exactly when some row belongs to the active
   * campaign (so an empty batch never does).
   */
  function Relevant(filterCampaigns: bool, rows: seq<Row>, campaign: string): (r: bool)
    ensures r <==> !filterCampaigns || exists i :: 0 <= i < |rows| && rows[i].campaignId == campaign
  {
    !filterCampaigns || !NoneMatch(rows, campaign)
  }

  /** The configured colour for an event table; with valid options it is offered and never black. */
  function FlashColor(cfg: Config, table: Table): (r: string)
    ensures ValidConfig(cfg) ==> r in Colors && r != Black
  {
    match table
    case DbCredentials => cfg.colorCredentials
    case DbVisits => cfg.colorVisits
  }

  /**
   * The colour `signal_db_credentials` / `signal_db_visits` ask the controller
   * to flash for one delivered batch, or None when the batch is ignored (a
   * sub-type other than "inserted", or no row of the active campaign).
   */
  function Dispatch(cfg: Config, table: Table, eventType: string, rows: seq<Row>, campaign: string): (r: Option<string>)
    ensures r.Some? <==>
      eventType == Inserted &&
      (!cfg.filterCampaigns || exists i :: 0 <= i < |rows| && rows[i].campaignId == campaign)
    ensures r.Some? && table == DbCredentials ==> r.value == cfg.colorCredentials
    ensures r.Some? && table == DbVisits ==> r.value == cfg.colorVisits
    ensures r.Some? && ValidConfig(cfg) ==> r.value in Colors && r.value != Black
  {
    if eventType == Inserted && Relevant(cfg.filterCampaigns, rows, campaign) then
      Some(FlashColor(cfg, table))
    else
      None
  }

  /** The defaults are offered choices, and black can never be configured. */
  lemma DefaultConfigValid()
    ensures ValidConfig(DefaultConfig)
    ensures Black !in Colors
    ensures FlashColor(DefaultConfig, DbVisits) == "yellow"
    ensures FlashColor(DefaultConfig, DbCredentials) == "red"
  {
  }

  /** An empty batch flashes only when filtering is off. */
  lemma EmptyBatch(cfg: Config, table: Table, campaign: string)
    ensures Dispatch(cfg, table, Inserted, [], campaign) ==
      if cfg.filterCampaigns then None else Some(FlashColor(cfg, table))
  {
  }

  /** Joining two batches is relevant exactly when one of them is. */
  lemma {:induction false} RelevantAppend(filterCampaigns: bool, a: seq<Row>, b: seq<Row>, campaign: string)
    ensures Relevant(filterCampaigns, a + b, campaign) <==>
      Relevant(filterCampaigns, a, campaign) || Relevant(filterCampaigns, b, campaign)
  {
    if filterCampaigns {
      if exists i :: 0 <= i < |a + b| && (a + b)[i].campaignId == campaign {
        var i :| 0 <= i < |a + b| && (a + b)[i].campaignId == campaign;
        if i < |a| {
          assert a[i].campaignId == campaign;
        } else {
          assert b[i - |a|].campaignId == campaign;
        }
      }
      if exists j :: 0 <= j < |a| && a[j].campaignId == campaign {
        var j :| 0 <= j < |a| && a[j].campaignId == campaign;
        assert (a + b)[j].campaignId == campaign;
      }
      if exists j :: 0 <= j < |b| && b[j].campaignId == campaign {
        var j :| 0 <= j < |b| && b[j].campaignId == campaign;
        assert (a + b)[|a| + j].campaignId == campaign;
      }
    }
  }
}
