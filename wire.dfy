/**
 * The part of the service protocol the folder-policy resource uses: the
 * three requests it sends, the replies it reads, and the errors the
 * resource reports to Terraform.
 */
module Wire {
  import opened Wrappers
  import opened BigEndian

  /**
   * The code of a status other than SUCCESS and OBJECT_NOT_FOUND; it is
   * never 0, the value of SUCCESS.
   */
  type OtherCode = c: int | c != 0 witness 1

  /** Reply status; `Success` is the enum's value 0. */
  datatype Status = Success | ObjectNotFound | OtherStatus(code: OtherCode)

  datatype Request =
    | GetMetaFromPath(path: string, trashed: bool, typeOfPath: int)
    | CreateFolder(name: string, parentPath: string, typeOfPath: int)
    | RemoveFolder(folderFullPath: string, isPerm: bool)

  /** Folder metadata: the serialized policy blob. */
  datatype FolderMeta = FolderMeta(policy: seq<byte>)

  /** Reply to GetMetaFromPath; `folder` is None when the path is not a folder. */
  datatype MetaReply = MetaReply(status: Status, folder: Option<FolderMeta>)

  /** Reply to CreateFolder or RemoveFolder. */
  datatype StatusReply = StatusReply(status: Status)

  /**
   * What client.Send hands back: an error, a nil response without an
   * error, or a decoded response of the expected operation.
   */
  datatype Reply<T> = SendError | NilResponse | Response(payload: T)

  /** The diagnostics the resource returns. */
  datatype Error =
    | ClientNil
    | SendFailed            // "Request/Response sent/recieved incorrectly"
    | EmptyResponse
    | AlreadyExists
    | BackendError(status: Status)
    | CreateFolderFailed
    | RemoveFolderFailed
    | FolderMissing         // "Folder doesn't exist(s)"
    | NotAFolder
    | WrongResponse         // the policy blob did not parse
    | DataCorrupted         // a policy attribute did not decode
    | UnexpectedIntType     // "unexpected type for max_size", for each integer field
    | BoolAssertionPanic    // v.(bool) on a non-boolean value panics
}
