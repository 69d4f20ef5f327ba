/**
 * The data step of migration 0003 (`forward_func`), which runs before the
 * Satellite's `content_type` and `object_id` columns become NOT NULL: every
 * Satellite without a parent is attached to the first Hub of its project,
 * or deleted when its project has no Hub.
 *
 * The rows are those of the historical schema the migration sees, where
 * Hubs and Satellites still belong to a project and a Satellite's parent
 * columns may be null.
 */
module Migration0003 {
  import opened Text

  /** A historical Hub row: its primary key and its project (a nullable foreign key). */
  datatype HubRow = HubRow(id: nat, project: Option<nat>)

  /** A historical Satellite row; `None` is a NULL column. */
  datatype SatRow = SatRow(
    name: string,
    project: Option<nat>,
    contentType: Option<nat>,
    objectId: Option<nat>)

  /** A row the migration's queryset `content_type__isnull=True` selects. */
  predicate Parentless(r: SatRow) {
    r.contentType.None?
  }

  /**
   * `Hub.objects.filter(project=p).first()`: the queryset has no ordering,
   * so `first()` orders by primary key and yields the smallest id among the
   * Hubs of project `p`, or nothing when there are none.
   */
  function FirstHubId(hubs: seq<HubRow>, p: Option<nat>): (r: Option<nat>)
    ensures r.Some? <==> exists i :: 0 <= i < |hubs| && hubs[i].project == p
    ensures r.Some? ==> exists i :: 0 <= i < |hubs| && hubs[i].project == p && hubs[i].id == r.value
    ensures r.Some? ==> forall i :: 0 <= i < |hubs| && hubs[i].project == p ==> r.value <= hubs[i].id
  {
    if hubs == [] then None
    else
      var init, last := hubs[..|hubs| - 1], hubs[|hubs| - 1];
      var before := FirstHubId(init, p);
      assert forall i :: 0 <= i < |init| ==> init[i] == hubs[i];
      if last.project != p then before
      else if before.Some? && before.value <= last.id then before
      else Some(last.id)
  }

  /**
   * The Satellite table after `forward_func`: a parentless row with a Hub in
   * its project gets the hub content type and that Hub's id, a parentless
   * row without one is gone, every other row is as it was.
   */
  function Repaired(hubs: seq<HubRow>, rows: map<nat, SatRow>, hubCt: nat): map<nat, SatRow> {
    map id | id in rows && (!Parentless(rows[id]) || FirstHubId(hubs, rows[id].project).Some?) ::
      RepairRow(hubs, rows[id], hubCt)
  }

  /** What the loop body does to one selected row that it keeps. */
  function RepairRow(hubs: seq<HubRow>, r: SatRow, hubCt: nat): SatRow {
    if Parentless(r) && FirstHubId(hubs, r.project).Some? then
      r.(contentType := Some(hubCt), objectId := Some(FirstHubId(hubs, r.project).value))
    else r
  }

  /** The two tables the migration touches, as the database holds them while it runs. */
  class Database {
    var hubs: seq<HubRow>
    /** Satellite rows by primary key. */
    var satellites: map<nat, SatRow>

    constructor (hubs: seq<HubRow>, satellites: map<nat, SatRow>)
      ensures this.hubs == hubs && this.satellites == satellites
    {
      this.hubs := hubs;
      this.satellites := satellites;
    }

    /**
     * `forward_func`. `hubCt` is the outcome of looking up the `hub` content
     * type: its id, or `None` when no such row exists, where `get` raises
     * `DoesNotExist` before any Satellite is read and the migration stops
     * with the tables as they were (`applied` is false). Otherwise the loop
     * visits the rows selected once up front, in no particular order, and
     * saves or deletes each one. Hubs are only read.
     */
    method ForwardFunc(hubCt: Option<nat>) returns (applied: bool)
      modifies this
      ensures applied <==> hubCt.Some?
      ensures hubs == old(hubs)
      ensures !applied ==> satellites == old(satellites)
      ensures applied ==> satellites == Repaired(old(hubs), old(satellites), hubCt.value)
    {
      if hubCt.None? {
        return false;
      }
      var hubContentType := hubCt.value;
      ghost var start := satellites;
      ghost var target := Repaired(hubs, start, hubContentType);
      var todo := set id | id in satellites && Parentless(satellites[id]);
      while todo != {}
        invariant hubs == old(hubs)
        invariant forall id :: id in todo ==> id in start && Parentless(start[id])
        invariant forall id :: id in todo ==> id in satellites && satellites[id] == start[id]
        invariant forall id :: id in satellites ==> id in start
        invariant forall id :: id in start && id !in todo ==> (id in satellites <==> id in target)
        invariant forall id :: id in satellites && id !in todo ==> satellites[id] == target[id]
        decreases todo
      {
        var id :| id in todo;
        var satellite := satellites[id];
        var hub := FirstHubId(hubs, satellite.project);
        if hub.Some? {
          satellites := satellites[id := satellite.(contentType := Some(hubContentType), objectId := Some(hub.value))];
        } else {
          satellites := satellites - {id};
        }
        todo := todo - {id};
      }
      assert satellites.Keys == target.Keys;
      applied := true;
    }
  }

  /** Afterwards no Satellite has a null content type, so the NOT NULL column can be added. */
  lemma NoParentlessRemain(hubs: seq<HubRow>, rows: map<nat, SatRow>, hubCt: nat, id: nat)
    requires id in Repaired(hubs, rows, hubCt)
    ensures !Parentless(Repaired(hubs, rows, hubCt)[id])
  {
  }

  /**
   * A parentless Satellite whose project has a Hub is kept, with the hub
   * content type and the id of the first Hub of that project, and nothing
   * else about it changes.
   */
  lemma ParentlessAttachedToFirstHub(hubs: seq<HubRow>, rows: map<nat, SatRow>, hubCt: nat, id: nat, i: nat)
    requires id in rows && Parentless(rows[id])
    requires i < |hubs| && hubs[i].project == rows[id].project
    ensures id in Repaired(hubs, rows, hubCt)
    ensures var r := Repaired(hubs, rows, hubCt)[id];
      r.contentType == Some(hubCt) && r.name == rows[id].name && r.project == rows[id].project &&
      (exists j :: 0 <= j < |hubs| && hubs[j].project == r.project && hubs[j].id == r.objectId.value) &&
      (forall j :: 0 <= j < |hubs| && hubs[j].project == r.project ==> r.objectId.value <= hubs[j].id)
  {
  }

  /** A Satellite is deleted exactly when it is parentless and its project has no Hub. */
  lemma DeletedIffNoHub(hubs: seq<HubRow>, rows: map<nat, SatRow>, hubCt: nat, id: nat)
    requires id in rows
    ensures id !in Repaired(hubs, rows, hubCt) <==>
      Parentless(rows[id]) && forall j :: 0 <= j < |hubs| ==> hubs[j].project != rows[id].project
  {
  }

  /** Rows that already had a content type are untouched; no row is added. */
  lemma ParentedUntouched(hubs: seq<HubRow>, rows: map<nat, SatRow>, hubCt: nat, id: nat)
    ensures id in Repaired(hubs, rows, hubCt) ==> id in rows
    ensures id in rows && !Parentless(rows[id]) ==>
      id in Repaired(hubs, rows, hubCt) && Repaired(hubs, rows, hubCt)[id] == rows[id]
  {
  }

  /** A second run finds nothing to do. */
  lemma RepairedIsFixedPoint(hubs: seq<HubRow>, rows: map<nat, SatRow>, hubCt: nat)
    ensures Repaired(hubs, Repaired(hubs, rows, hubCt), hubCt) == Repaired(hubs, rows, hubCt)
  {
    var once := Repaired(hubs, rows, hubCt);
    var twice := Repaired(hubs, once, hubCt);
    assert twice.Keys == once.Keys;
  }
}
