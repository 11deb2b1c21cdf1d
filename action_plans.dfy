/**
 * action_plans.go: the requests of the action plan operations. Start and
 * Cancel are UpdateActionPlan with the single update state = "TRIGGERED"
 * or state = "CANCELLED".
 */
module ActionPlans {
  import opened Wrappers
  import opened Options
  import opened JsonPatch
  import opened Requests

  const ActionPlansPath: string := "/action_plans"
  const Triggered: string := "TRIGGERED"
  const Cancelled: string := "CANCELLED"

  function GetActionPlan(uuid: string): Request {
    Request(MethodGet, ItemPath(ActionPlansPath, uuid))
  }

  method ListActionPlans(opts: Option<ListOptions>, escape: string -> string) returns (req: Request)
    ensures req == Request(MethodGet, ActionPlansPath + Query.QueryString(opts, escape))
  {
    req := ListRequest(ActionPlansPath, opts, escape);
  }

  /** A PATCH of the action plan's path carrying one replace operation per update. */
  method UpdateActionPlan<V>(uuid: string, updates: map<string, V>) returns (req: Request, patches: seq<Patch<V>>)
    ensures req == Request(MethodPatch, ItemPath(ActionPlansPath, uuid))
    ensures ReplacesExactly(patches, updates)
  {
    req := Request(MethodPatch, ItemPath(ActionPlansPath, uuid));
    patches := ReplacePatches(updates);
  }

  function DeleteActionPlan(uuid: string): Request {
    Request(MethodDelete, ItemPath(ActionPlansPath, uuid))
  }

  /** Exactly one operation: replace "/state" with "TRIGGERED". */
  method StartActionPlan(uuid: string) returns (req: Request, patches: seq<Patch<string>>)
    ensures req == Request(MethodPatch, ItemPath(ActionPlansPath, uuid))
    ensures patches == [Patch(Replace, "/state", Triggered)]
  {
    req, patches := UpdateActionPlan(uuid, map["state" := Triggered]);
    SingleUpdate(patches, "state", Triggered);
    assert PointerTo("state") == "/state";
  }

  /** Exactly one operation: replace "/state" with "CANCELLED". */
  method CancelActionPlan(uuid: string) returns (req: Request, patches: seq<Patch<string>>)
    ensures req == Request(MethodPatch, ItemPath(ActionPlansPath, uuid))
    ensures patches == [Patch(Replace, "/state", Cancelled)]
  {
    req, patches := UpdateActionPlan(uuid, map["state" := Cancelled]);
    SingleUpdate(patches, "state", Cancelled);
    assert PointerTo("state") == "/state";
  }

  /** Get, Update and Delete address the same item path, which names the uuid. */
  lemma ActionPlanItemRequests(uuid: string)
    ensures GetActionPlan(uuid).path == DeleteActionPlan(uuid).path == "/action_plans/" + uuid
    ensures ItemUUID(ActionPlansPath, GetActionPlan(uuid).path) == Some(uuid)
    ensures GetActionPlan(uuid).httpMethod == "GET" && DeleteActionPlan(uuid).httpMethod == "DELETE"
  {
    ItemPathRoundTrip(ActionPlansPath, uuid);
  }
}
