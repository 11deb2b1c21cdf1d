/**
 * audit_templates.go: the requests of the audit template operations.
 */
module AuditTemplates {
  import opened Wrappers
  import opened Options
  import opened JsonPatch
  import opened Requests

  const AuditTemplatesPath: string := "/audit_templates"

  function CreateAuditTemplate(): Request {
    Request(MethodPost, AuditTemplatesPath)
  }

  function GetAuditTemplate(uuid: string): Request {
    Request(MethodGet, ItemPath(AuditTemplatesPath, uuid))
  }

  method ListAuditTemplates(opts: Option<ListOptions>, escape: string -> string) returns (req: Request)
    ensures req == Request(MethodGet, AuditTemplatesPath + Query.QueryString(opts, escape))
  {
    req := ListRequest(AuditTemplatesPath, opts, escape);
  }

  /** A PATCH of the template's path carrying one replace operation per update. */
  method UpdateAuditTemplate<V>(uuid: string, updates: map<string, V>) returns (req: Request, patches: seq<Patch<V>>)
    ensures req == Request(MethodPatch, ItemPath(AuditTemplatesPath, uuid))
    ensures ReplacesExactly(patches, updates)
  {
    req := Request(MethodPatch, ItemPath(AuditTemplatesPath, uuid));
    patches := ReplacePatches(updates);
  }

  function DeleteAuditTemplate(uuid: string): Request {
    Request(MethodDelete, ItemPath(AuditTemplatesPath, uuid))
  }

  /** Get, Update and Delete address the same item path, which names the uuid. */
  lemma AuditTemplateItemRequests(uuid: string)
    ensures GetAuditTemplate(uuid).path == DeleteAuditTemplate(uuid).path == "/audit_templates/" + uuid
    ensures ItemUUID(AuditTemplatesPath, GetAuditTemplate(uuid).path) == Some(uuid)
    ensures GetAuditTemplate(uuid).httpMethod == "GET" && DeleteAuditTemplate(uuid).httpMethod == "DELETE"
    ensures CreateAuditTemplate() == Request("POST", "/audit_templates")
  {
    ItemPathRoundTrip(AuditTemplatesPath, uuid);
  }
}
