/**
 * audits.go: the requests of the audit operations. StartAudit is
 * UpdateAudit with the single update state = "ONGOING".
 */
module Audits {
  import opened Wrappers
  import opened Options
  import opened JsonPatch
  import opened Requests

  const AuditsPath: string := "/audits"
  const Ongoing: string := "ONGOING"

  function CreateAudit(): Request {
    Request(MethodPost, AuditsPath)
  }

  function GetAudit(uuid: string): Request {
    Request(MethodGet, ItemPath(AuditsPath, uuid))
  }

  method ListAudits(opts: Option<ListOptions>, escape: string -> string) returns (req: Request)
    ensures req == Request(MethodGet, AuditsPath + Query.QueryString(opts, escape))
  {
    req := ListRequest(AuditsPath, opts, escape);
  }

  /** A PATCH of the audit's path carrying one replace operation per update. */
  method UpdateAudit<V>(uuid: string, updates: map<string, V>) returns (req: Request, patches: seq<Patch<V>>)
    ensures req == Request(MethodPatch, ItemPath(AuditsPath, uuid))
    ensures ReplacesExactly(patches, updates)
  {
    req := Request(MethodPatch, ItemPath(AuditsPath, uuid));
    patches := ReplacePatches(updates);
  }

  function DeleteAudit(uuid: string): Request {
    Request(MethodDelete, ItemPath(AuditsPath, uuid))
  }

  /** Exactly one operation: replace "/state" with "ONGOING". */
  method StartAudit(uuid: string) returns (req: Request, patches: seq<Patch<string>>)
    ensures req == Request(MethodPatch, ItemPath(AuditsPath, uuid))
    ensures patches == [Patch(Replace, "/state", Ongoing)]
  {
    req, patches := UpdateAudit(uuid, map["state" := Ongoing]);
    SingleUpdate(patches, "state", Ongoing);
    assert PointerTo("state") == "/state";
  }

  /** Get, Update and Delete address the same item path, which names the
    * uuid; each uses its own method. */
  lemma AuditItemRequests(uuid: string)
    ensures GetAudit(uuid).path == DeleteAudit(uuid).path == "/audits/" + uuid
    ensures ItemUUID(AuditsPath, GetAudit(uuid).path) == Some(uuid)
    ensures GetAudit(uuid).httpMethod == "GET" && DeleteAudit(uuid).httpMethod == "DELETE"
    ensures CreateAudit() == Request("POST", "/audits")
  {
    ItemPathRoundTrip(AuditsPath, uuid);
  }
}
