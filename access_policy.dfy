/**
 * The lifecycle of the `ysafe_access_policy` resource: a folder under the
 * root, looked up by path before every operation. The server is not part
 * of the model: each operation takes the replies it would receive as
 * parameters and returns the requests it sends, in order.
 */
module AccessPolicy {
  import opened Wrappers
  import opened Wire
  import opened PolicyCodec

  /**
   * The Terraform state of one resource: its id, its name, the attribute
   * values held in state and the attributes HasChange reports as changed.
   * Update reads `values` as the attributes GetOk reports as set; read and
   * import may store a TTL of 0 or `false` here, which GetOk would report
   * as unset.
   */
  datatype Resource = Resource(id: string, name: string, values: map<string, Value>, changed: set<string>)

  datatype Diag = NoError | Failed(error: Error)

  datatype Outcome = Outcome(diag: Diag, resource: Resource, sent: seq<Request>)

  /** Import hands back a list of resources; it is empty when the client is nil. */
  datatype ImportOutcome = ImportOutcome(diag: Diag, resources: seq<Resource>, sent: seq<Request>)

  /** The request that looks up the folder called name. */
  function LookupRequest(name: string): Request
  {
    GetMetaFromPath("/" + name, false, 0)
  }

  /** The status the lookup came back with, when the server answered it. */
  function LookupStatus(hasClient: bool, lookup: Reply<MetaReply>): Option<Status>
  {
    if hasClient && lookup.Response? then Some(lookup.payload.status) else None
  }

  datatype Lookup = Lookup(sent: seq<Request>, result: Result<MetaReply, Error>)

  /** getMetaFrom: look up the folder at "/" + name. */
  function GetMetaFrom(name: string, hasClient: bool, reply: Reply<MetaReply>): (l: Lookup)
    ensures l.sent == (if hasClient then [GetMetaFromPath("/" + name, false, 0)] else [])
    ensures l.result.Ok? <==> hasClient && reply.Response?
    ensures l.result.Ok? ==> l.result.value == reply.payload
    ensures !hasClient ==> l.result == Err(ClientNil)
    ensures hasClient && reply.SendError? ==> l.result == Err(SendFailed)
    ensures hasClient && reply.NilResponse? ==> l.result == Err(EmptyResponse)
  {
    if !hasClient then Lookup([], Err(ClientNil))
    else
      var sent := [LookupRequest(name)];
      match reply
      case SendError => Lookup(sent, Err(SendFailed))
      case NilResponse => Lookup(sent, Err(EmptyResponse))
      case Response(res) => Lookup(sent, Ok(res))
  }

  /**
   * Create: a folder that exists is an error; a folder that is not found
   * is created under "/" and the id is set when the server confirms;
   * any other lookup status is an error.
   */
  function Create(d: Resource, hasClient: bool, lookup: Reply<MetaReply>, created: Reply<StatusReply>): (o: Outcome)
    ensures o.diag.NoError? <==>
      LookupStatus(hasClient, lookup) == Some(ObjectNotFound) && created.Response? && created.payload.status == Success
    ensures o.resource == if o.diag.NoError? then d.(id := d.name) else d
    ensures CreateFolder(d.name, "/", 1) in o.sent <==> LookupStatus(hasClient, lookup) == Some(ObjectNotFound)
    ensures o.sent == [] <==> !hasClient
    ensures hasClient ==> (o.sent == [LookupRequest(d.name)] +
      (if LookupStatus(hasClient, lookup) == Some(ObjectNotFound) then [CreateFolder(d.name, "/", 1)] else []))
    ensures !hasClient ==> o.diag == Failed(ClientNil)
    ensures hasClient && !lookup.Response? ==> o.diag == Failed(GetMetaFrom(d.name, true, lookup).result.error)
    ensures LookupStatus(hasClient, lookup) == Some(Success) ==> o.diag == Failed(AlreadyExists)
    ensures LookupStatus(hasClient, lookup) == Some(ObjectNotFound) && !(created.Response? && created.payload.status == Success) ==>
      o.diag == Failed(CreateFolderFailed)
    ensures LookupStatus(hasClient, lookup).Some? && LookupStatus(hasClient, lookup).value.OtherStatus? ==>
      o.diag == Failed(BackendError(LookupStatus(hasClient, lookup).value))
  {
    if !hasClient then Outcome(Failed(ClientNil), d, [])
    else
      var l := GetMetaFrom(d.name, true, lookup);
      match l.result
      case Err(e) => Outcome(Failed(e), d, l.sent)
      case Ok(stat) =>
        match stat.status
        case Success => Outcome(Failed(AlreadyExists), d, l.sent)
        case ObjectNotFound =>
          var sent := l.sent + [CreateFolder(d.name, "/", 1)];
          if created.Response? && created.payload.status == Success then Outcome(NoError, d.(id := d.name), sent)
          else Outcome(Failed(CreateFolderFailed), d, sent)
        case OtherStatus(_) => Outcome(Failed(BackendError(stat.status)), d, l.sent)
  }

  /**
   * Delete: only a folder found with status 0 is removed; the resource
   * value itself is left as it is.
   */
  function Delete(d: Resource, hasClient: bool, lookup: Reply<MetaReply>, removed: Reply<StatusReply>): (o: Outcome)
    ensures o.resource == d
    ensures o.diag.NoError? <==>
      LookupStatus(hasClient, lookup) == Some(Success) && removed.Response? && removed.payload.status == Success
    ensures RemoveFolder("/" + d.name, false) in o.sent <==> LookupStatus(hasClient, lookup) == Some(Success)
    ensures o.sent == [] <==> !hasClient
    ensures hasClient ==> (o.sent == [LookupRequest(d.name)] +
      (if LookupStatus(hasClient, lookup) == Some(Success) then [RemoveFolder("/" + d.name, false)] else []))
    ensures !hasClient ==> o.diag == Failed(ClientNil)
    ensures hasClient && !lookup.Response? ==> o.diag == Failed(GetMetaFrom(d.name, true, lookup).result.error)
    ensures LookupStatus(hasClient, lookup).Some? && LookupStatus(hasClient, lookup) != Some(Success) ==>
      o.diag == Failed(FolderMissing)
    ensures LookupStatus(hasClient, lookup) == Some(Success) && removed.SendError? ==> o.diag == Failed(SendFailed)
    ensures (LookupStatus(hasClient, lookup) == Some(Success) &&
      (removed.NilResponse? || (removed.Response? && removed.payload.status != Success))) ==>
      o.diag == Failed(RemoveFolderFailed)
  {
    if !hasClient then Outcome(Failed(ClientNil), d, [])
    else
      var l := GetMetaFrom(d.name, true, lookup);
      match l.result
      case Err(e) => Outcome(Failed(e), d, l.sent)
      case Ok(stat) =>
        if stat.status == Success then
          var sent := l.sent + [RemoveFolder("/" + d.name, false)];
          match removed
          case SendError => Outcome(Failed(SendFailed), d, sent)
          case NilResponse => Outcome(Failed(RemoveFolderFailed), d, sent)
          case Response(res) =>
            if res.status != Success then Outcome(Failed(RemoveFolderFailed), d, sent)
            else Outcome(NoError, d, sent)
        else Outcome(Failed(FolderMissing), d, l.sent)
  }

  /**
   * The checks read and import make before the scan: the folder must be
   * found with status 0, be a folder, and carry a policy blob that parses;
   * the result is its attribute list.
   */
  function FolderAttributes(name: string, hasClient: bool, lookup: Reply<MetaReply>, dec: Decoders): (r: Result<seq<KeyValMapping>, Error>)
    ensures !hasClient || !lookup.Response? ==> r == Err(GetMetaFrom(name, hasClient, lookup).result.error)
    ensures LookupStatus(hasClient, lookup).Some? && LookupStatus(hasClient, lookup) != Some(Success) ==>
      r == Err(FolderMissing)
    ensures LookupStatus(hasClient, lookup) == Some(Success) && lookup.payload.folder.None? ==> r == Err(NotAFolder)
    ensures LookupStatus(hasClient, lookup) == Some(Success) && lookup.payload.folder.Some? ==>
      r == match dec.policy(lookup.payload.folder.value.policy)
        case None => Err(WrongResponse)
        case Some(attrs) => Ok(attrs)
  {
    if !hasClient then Err(ClientNil)
    else
      match GetMetaFrom(name, true, lookup).result
      case Err(e) => Err(e)
      case Ok(stat) =>
        if stat.status != Success then Err(FolderMissing)
        else if stat.folder.None? then Err(NotAFolder)
        else
          match dec.policy(stat.folder.value.policy)
          case None => Err(WrongResponse)
          case Some(attrs) => Ok(attrs)
  }

  /** What read does to the state: the result of the scan, reported. */
  function ReadResult(d: Resource, hasClient: bool, lookup: Reply<MetaReply>, dec: Decoders): Result<Resource, Error>
  {
    match FolderAttributes(d.name, hasClient, lookup, dec)
    case Err(e) => Err(e)
    case Ok(attrs) =>
      match Scan(attrs, dec)
      case Err(e) => Err(e)
      case Ok(decoded) => Ok(d.(values := Report(d.values, decoded)))
  }

  /**
   * Read: refresh the state from the folder's policy. Only the lookup is
   * sent; on any error the state is left as it was.
   */
  method Read(d: Resource, hasClient: bool, lookup: Reply<MetaReply>, dec: Decoders) returns (o: Outcome)
    ensures o.sent == (if hasClient then [LookupRequest(d.name)] else [])
    ensures o.diag.NoError? <==> ReadResult(d, hasClient, lookup, dec).Ok?
    ensures o.diag.NoError? ==> o.resource == ReadResult(d, hasClient, lookup, dec).value
    ensures o.diag.Failed? ==> o.resource == d && o.diag.error == ReadResult(d, hasClient, lookup, dec).error
    ensures o.resource.id == d.id && o.resource.name == d.name && o.resource.changed == d.changed
  {
    if !hasClient {
      return Outcome(Failed(ClientNil), d, []);
    }
    var l := GetMetaFrom(d.name, true, lookup);
    if l.result.Err? {
      return Outcome(Failed(l.result.error), d, l.sent);
    }
    var stat := l.result.value;
    if stat.status == Success {
      if stat.folder.None? {
        return Outcome(Failed(NotAFolder), d, l.sent);
      }
      var policyObj := dec.policy(stat.folder.value.policy);
      if policyObj.None? {
        return Outcome(Failed(WrongResponse), d, l.sent);
      }
      var decoded := ScanPolicy(policyObj.value, dec);
      if decoded.Err? {
        return Outcome(Failed(decoded.error), d, l.sent);
      }
      o := Outcome(NoError, d.(values := Report(d.values, decoded.value)), l.sent);
    } else {
      return Outcome(Failed(FolderMissing), d, l.sent);
    }
  }

  /**
   * Import: like read, but the folder is named by the resource's id, and
   * the name is written into the state as soon as the folder is found,
   * so it stays written when a later step fails.
   */
  method ImportState(d: Resource, hasClient: bool, lookup: Reply<MetaReply>, dec: Decoders) returns (o: ImportOutcome)
    ensures !hasClient ==> o == ImportOutcome(Failed(ClientNil), [], [])
    ensures hasClient ==> o.sent == [LookupRequest(d.id)] && |o.resources| == 1
    ensures o.diag.NoError? <==> ReadResult(d.(name := d.id), hasClient, lookup, dec).Ok?
    ensures o.diag.NoError? ==> o.resources == [ReadResult(d.(name := d.id), hasClient, lookup, dec).value]
    ensures o.diag.Failed? && hasClient ==>
      && o.diag.error == ReadResult(d.(name := d.id), hasClient, lookup, dec).error
      && o.resources == [if lookup.Response? && lookup.payload.status == Success && lookup.payload.folder.Some?
                         then d.(name := d.id) else d]
  {
    var name := d.id;
    if !hasClient {
      return ImportOutcome(Failed(ClientNil), [], []);
    }
    var l := GetMetaFrom(name, true, lookup);
    if l.result.Err? {
      return ImportOutcome(Failed(l.result.error), [d], l.sent);
    }
    var stat := l.result.value;
    if stat.status == Success {
      if stat.folder.None? {
        return ImportOutcome(Failed(NotAFolder), [d], l.sent);
      }
      var named := d.(name := name);
      var policyObj := dec.policy(stat.folder.value.policy);
      if policyObj.None? {
        return ImportOutcome(Failed(WrongResponse), [named], l.sent);
      }
      var decoded := ScanPolicy(policyObj.value, dec);
      if decoded.Err? {
        return ImportOutcome(Failed(decoded.error), [named], l.sent);
      }
      o := ImportOutcome(NoError, [named.(values := Report(named.values, decoded.value))], l.sent);
    } else {
      return ImportOutcome(Failed(FolderMissing), [d], l.sent);
    }
  }

  /** The inputs update reads from the state. */
  function PlanOf(d: Resource): Plan
  {
    Plan(d.values, d.changed)
  }

  /**
   * Update: with the folder found, build the policy's attribute list and
   * set the id; the list is built and then dropped, so the only request
   * ever sent is the lookup.
   */
  method Update(d: Resource, hasClient: bool, lookup: Reply<MetaReply>) returns (o: Outcome)
    ensures o.sent == (if hasClient then [LookupRequest(d.name)] else [])
    ensures o.diag.NoError? <==>
      LookupStatus(hasClient, lookup) == Some(Success) && BuildMappings(FieldOrder, PlanOf(d)).Ok?
    ensures o.resource == if o.diag.NoError? then d.(id := d.name) else d
    ensures !hasClient ==> o.diag == Failed(ClientNil)
    ensures hasClient && !lookup.Response? ==> o.diag == Failed(GetMetaFrom(d.name, true, lookup).result.error)
    ensures LookupStatus(hasClient, lookup).Some? && LookupStatus(hasClient, lookup) != Some(Success) ==>
      o.diag == Failed(FolderMissing)
    ensures LookupStatus(hasClient, lookup) == Some(Success) && BuildMappings(FieldOrder, PlanOf(d)).Err? ==>
      o.diag == Failed(BuildMappings(FieldOrder, PlanOf(d)).error)
  {
    if !hasClient {
      return Outcome(Failed(ClientNil), d, []);
    }
    var l := GetMetaFrom(d.name, true, lookup);
    if l.result.Err? {
      return Outcome(Failed(l.result.error), d, l.sent);
    }
    var stat := l.result.value;
    if stat.status != Success {
      return Outcome(Failed(FolderMissing), d, l.sent);
    } else {
      var keyValMappings := BuildPolicy(PlanOf(d));
      if keyValMappings.Err? {
        return Outcome(Failed(keyValMappings.error), d, l.sent);
      }
      // the policy built from keyValMappings is discarded here
    }
    o := Outcome(NoError, d.(id := d.name), l.sent);
  }

  /**
   * Read leaves every attribute but remove_older_versions and
   * default_ttl_for_files as it was, and changes at most one of those two.
   */
  lemma ReadChangesAtMostOneAttribute(d: Resource, hasClient: bool, lookup: Reply<MetaReply>, dec: Decoders)
    requires ReadResult(d, hasClient, lookup, dec).Ok?
    ensures var after := ReadResult(d, hasClient, lookup, dec).value.values;
      && (forall key :: key != "remove_older_versions" && key != "default_ttl_for_files" ==>
            (key in after <==> key in d.values) && (key in d.values ==> after[key] == d.values[key]))
      && (("remove_older_versions" in after && ("remove_older_versions" !in d.values || after["remove_older_versions"] != d.values["remove_older_versions"])) ==>
            ("default_ttl_for_files" in after <==> "default_ttl_for_files" in d.values) &&
            ("default_ttl_for_files" in d.values ==> after["default_ttl_for_files"] == d.values["default_ttl_for_files"]))
  {
    var attrs := FolderAttributes(d.name, hasClient, lookup, dec).value;
    var decoded := Scan(attrs, dec).value;
    ScanReportsAtMostOne(attrs, dec);
    ReportWrites(d.values, decoded);
    NamesDiffer();
    forall key | key != "remove_older_versions" && key != "default_ttl_for_files"
      ensures !Writes(decoded, key)
    {
      if FieldOf(key).Some? {
        assert Name(FieldOf(key).value) == key;
      }
    }
    if Writes(decoded, "remove_older_versions") {
      assert FieldOf("default_ttl_for_files") == Some(DefaultTtlForFiles);
      assert !Writes(decoded, "default_ttl_for_files");
    } else {
      assert FieldOf("remove_older_versions") == Some(RemoveOlderVersions);
    }
  }
}
