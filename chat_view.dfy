/**
 * The chat view (src/components/chat/chat-view.tsx): the attachment list with
 * its de-duplicating add and drop handlers, the send routing between slash
 * commands, the agent and plain chat, the pending permission requests of a
 * running agent, and the typing of a picked file.
 */
module ChatView {
  import opened Wrappers
  import opened JsString
  import SlashCommands

  datatype Attachment = Attachment(name: string, path: string, attachmentType: string)

  function PathsOf(s: seq<Attachment>): set<string> {
    set k | 0 <= k < |s| :: s[k].path
  }

  /** `name.split('.').pop() || 'file'`: the text after the last '.', or 'file' when that is empty. */
  function TypeFromName(name: string): (t: string)
    ensures t != "" && '.' !in t
    ensures t == LastPiece(name, '.') || (LastPiece(name, '.') == "" && t == "file")
  {
    var ext := LastPiece(name, '.');
    if ext == "" then "file" else ext
  }

  /** `file-add-to-chat` (and a dropped file-tree node): added only when its path is new. */
  function AddUnique(prev: seq<Attachment>, name: string, path: string): (r: seq<Attachment>)
    ensures path in PathsOf(prev) ==> r == prev
    ensures path !in PathsOf(prev) ==> r == prev + [Attachment(name, path, TypeFromName(name))]
  {
    if exists k :: 0 <= k < |prev| && prev[k].path == path then prev
    else prev + [Attachment(name, path, TypeFromName(name))]
  }

  /** Adding the same path twice is adding it once. */
  lemma AddUniqueIdempotent(prev: seq<Attachment>, name: string, path: string, name': string)
    ensures AddUnique(AddUnique(prev, name, path), name', path) == AddUnique(prev, name, path)
  {
    var r := AddUnique(prev, name, path);
    assert path in PathsOf(r) by {
      if path !in PathsOf(prev) {
        assert r[|prev|].path == path;
      }
    }
  }

  /** A file of a native drop: `path` is Electron's extra field, `mimeType` the browser's `type` ('' when unknown). */
  datatype DroppedFile = DroppedFile(name: string, path: string, mimeType: string)

  function FromDropped(f: DroppedFile): (a: Attachment)
    ensures a.name == f.name
    ensures a.path == if f.path != "" then f.path else f.name
    ensures a.attachmentType == if f.mimeType != "" then f.mimeType else TypeFromName(f.name)
  {
    Attachment(f.name, if f.path != "" then f.path else f.name, if f.mimeType != "" then f.mimeType else TypeFromName(f.name))
  }

  /** `newFiles.filter(f => !existingPaths.has(f.path))` over the converted files. */
  function NewOnes(files: seq<DroppedFile>, existing: set<string>): (r: seq<Attachment>)
    ensures forall k :: 0 <= k < |r| ==> r[k].path !in existing
    ensures forall k :: 0 <= k < |files| && FromDropped(files[k]).path !in existing ==> FromDropped(files[k]) in r
    ensures forall k :: 0 <= k < |r| ==> exists j :: 0 <= j < |files| && r[k] == FromDropped(files[j])
    decreases |files|
  {
    if |files| == 0 then []
    else
      var rest := NewOnes(files[1..], existing);
      assert forall j :: 0 <= j < |files| - 1 ==> files[1..][j] == files[j + 1];
      var a := FromDropped(files[0]);
      if a.path !in existing then
        ConsShift(a, rest);
        [a] + rest
      else rest
  }

  /**
   * The filter keeps the drop's order: the new files of two drops in a row are
   * those of the first followed by those of the second.
   */
  lemma {:induction false} NewOnesAppend(a: seq<DroppedFile>, b: seq<DroppedFile>, existing: set<string>)
    ensures NewOnes(a + b, existing) == NewOnes(a, existing) + NewOnes(b, existing)
    decreases |a|
  {
    if |a| == 0 {
      assert a + b == b;
    } else {
      assert (a + b)[0] == a[0];
      assert (a + b)[1..] == a[1..] + b;
      NewOnesAppend(a[1..], b, existing);
    }
  }

  /** One dropped file is kept, converted, exactly when its path is new. */
  lemma NewOnesOne(f: DroppedFile, existing: set<string>)
    ensures NewOnes([f], existing) == if FromDropped(f).path !in existing then [FromDropped(f)] else []
  {
    assert [f][1..] == [];
  }

  lemma ConsShift(a: Attachment, rest: seq<Attachment>)
    ensures forall k :: 1 <= k < |[a] + rest| ==> ([a] + rest)[k] == rest[k - 1]
  {
  }

  /** A native drop: the attachments so far, then the dropped files whose path was not attached before the drop. */
  function DropFiles(prev: seq<Attachment>, files: seq<DroppedFile>): (r: seq<Attachment>)
    ensures |r| == |prev| + |NewOnes(files, PathsOf(prev))|
    ensures r[..|prev|] == prev
    ensures forall k :: |prev| <= k < |r| ==> r[k].path !in PathsOf(prev)
    ensures r[|prev|..] == NewOnes(files, PathsOf(prev))
  {
    prev + NewOnes(files, PathsOf(prev))
  }

  /** Duplicates inside one drop are not removed: the same new file dropped twice is attached twice. */
  lemma DropKeepsDuplicatesWithinDrop(prev: seq<Attachment>, f: DroppedFile)
    requires FromDropped(f).path !in PathsOf(prev)
    ensures DropFiles(prev, [f, f]) == prev + [FromDropped(f), FromDropped(f)]
  {
    var e := PathsOf(prev);
    assert NewOnes([], e) == [];
    assert [f][1..] == [];
    assert NewOnes([f], e) == [FromDropped(f)];
    assert [f, f][1..] == [f];
    assert NewOnes([f, f], e) == [FromDropped(f), FromDropped(f)];
  }

  /** A node dragged from the file tree, as `JSON.parse` gave it. */
  datatype NodeData = NodeData(name: string, path: string, isDirectory: bool)

  /** A drop without native files: a parsed file node is added if new; a directory or unparsable data changes nothing. */
  function DropNode(prev: seq<Attachment>, node: Option<NodeData>): (r: seq<Attachment>)
    ensures node.None? || node.value.isDirectory ==> r == prev
    ensures node.Some? && !node.value.isDirectory ==> r == AddUnique(prev, node.value.name, node.value.path)
  {
    match node
    case None => prev
    case Some(n) => if n.isDirectory then prev else AddUnique(prev, n.name, n.path)
  }

  const ImageExtensions: seq<string> := ["png", "jpg", "jpeg", "gif", "webp"]

  /** `handleFileSelect`: the file name after the last '/', typed 'image' exactly for the five image extensions. */
  function PickedFile(filePath: string): (a: Attachment)
    ensures a.path == filePath
    ensures a.name == if LastPiece(filePath, '/') == "" then "file" else LastPiece(filePath, '/')
    ensures a.attachmentType == "image" <==> LastPiece(a.name, '.') in ImageExtensions
    ensures a.attachmentType != "image" ==> a.attachmentType == "file"
  {
    var last := LastPiece(filePath, '/');
    var name := if last == "" then "file" else last;
    var ext := LastPiece(name, '.');
    Attachment(name, filePath, if ext in ImageExtensions then "image" else "file")
  }

  /** `removeAttachment`: `prev.filter((_, i) => i !== index)`. */
  function RemoveAt(prev: seq<Attachment>, index: int): (r: seq<Attachment>)
    ensures 0 <= index < |prev| ==> |r| == |prev| - 1 && r == prev[..index] + prev[index + 1..]
    ensures !(0 <= index < |prev|) ==> r == prev
  {
    if 0 <= index < |prev| then prev[..index] + prev[index + 1..] else prev
  }

  // ---------------------------------------------------------------------------
  // Send routing
  // ---------------------------------------------------------------------------

  datatype Mode = Ask | Code | Plan

  /** Where a send goes. */
  datatype Route =
    | Nothing
    | Slash(command: string)
    | Agent(content: string)
    | Chat(attachments: seq<Attachment>)

  /**
   * `handleSend`: blank input without attachments does nothing; input starting
   * with '/' (after trimming) is a slash command; the code and plan modes start
   * the agent with the trimmed input (the attachments are not sent); the rest
   * goes to the chat with the attachments.
   */
  function SendRoute(input: string, attachments: seq<Attachment>, mode: Mode): (r: Route)
    ensures Trim(input) == "" && |attachments| == 0 ==> r == Nothing
    ensures r == Nothing ==> Trim(input) == "" && |attachments| == 0
    ensures StartsWith(Trim(input), "/") ==> r == Slash(SlashCommands.ParseSlashCommand(Trim(input)).value.command)
    ensures r.Agent? <==> !(Trim(input) == "" && |attachments| == 0) && !StartsWith(Trim(input), "/") && !mode.Ask?
    ensures r.Agent? ==> r.content == Trim(input)
    ensures r.Chat? ==> r.attachments == attachments && mode.Ask?
  {
    var content := Trim(input);
    if content == "" && |attachments| == 0 then Nothing
    else if StartsWith(content, "/") then
      Slash(SlashCommands.ParseSlashCommand(content).value.command)
    else if !mode.Ask? then Agent(content)
    else Chat(attachments)
  }

  // ---------------------------------------------------------------------------
  // Pending permission requests
  // ---------------------------------------------------------------------------

  datatype PermissionRequest = PermissionRequest(requestId: string, toolName: string, toolInput: map<string, string>, messageId: string)

  datatype Decision = Allow | Deny(message: string)

  const RejectMessage := "User rejected the permission request"

  /** `prev.filter(p => p.requestId !== id)` */
  function WithoutRequest(ps: seq<PermissionRequest>, id: string): (r: seq<PermissionRequest>)
    ensures forall k :: 0 <= k < |r| ==> r[k].requestId != id && r[k] in ps
    ensures forall k :: 0 <= k < |ps| && ps[k].requestId != id ==> ps[k] in r
    decreases |ps|
  {
    if |ps| == 0 then []
    else (if ps[0].requestId == id then [] else [ps[0]]) + WithoutRequest(ps[1..], id)
  }

  /** Removing a request keeps the others in order: removal distributes over concatenation. */
  lemma {:induction false} WithoutRequestAppend(a: seq<PermissionRequest>, b: seq<PermissionRequest>, id: string)
    ensures WithoutRequest(a + b, id) == WithoutRequest(a, id) + WithoutRequest(b, id)
    decreases |a|
  {
    if |a| == 0 {
      assert a + b == b;
    } else {
      assert (a + b)[1..] == a[1..] + b;
      assert (a + b)[0] == a[0];
      WithoutRequestAppend(a[1..], b, id);
    }
  }

  /** A request added and then answered leaves the list as it was, when its id was not pending. */
  lemma {:induction false} AnswerUndoesAdd(ps: seq<PermissionRequest>, req: PermissionRequest)
    requires forall k :: 0 <= k < |ps| ==> ps[k].requestId != req.requestId
    ensures WithoutRequest(ps + [req], req.requestId) == ps
    decreases |ps|
  {
    if |ps| == 0 {
      assert ps + [req] == [req];
    } else {
      assert (ps + [req])[1..] == ps[1..] + [req];
      assert (ps + [req])[0] == ps[0];
      AnswerUndoesAdd(ps[1..], req);
    }
  }

  /** The view's state: the attachments, the pending requests and the resolutions sent to the main process. */
  class ChatViewState {
    var attachments: seq<Attachment>
    var pending: seq<PermissionRequest>
    var resolutions: seq<(string, Decision)>

    constructor ()
      ensures attachments == [] && pending == [] && resolutions == []
    {
      attachments := [];
      pending := [];
      resolutions := [];
    }

    method FileAdd(name: string, path: string)
      modifies this
      ensures attachments == AddUnique(old(attachments), name, path)
      ensures pending == old(pending) && resolutions == old(resolutions)
    {
      attachments := AddUnique(attachments, name, path);
    }

    /** `handleDrop`: native files when there are any, else the file-tree node data. */
    method Drop(files: seq<DroppedFile>, node: Option<NodeData>)
      modifies this
      ensures |files| > 0 ==> attachments == DropFiles(old(attachments), files)
      ensures |files| == 0 ==> attachments == DropNode(old(attachments), node)
      ensures pending == old(pending) && resolutions == old(resolutions)
    {
      if |files| > 0 {
        attachments := DropFiles(attachments, files);
        return;
      }
      attachments := DropNode(attachments, node);
    }

    /** A picked file is appended without a duplicate check. */
    method FileSelect(hasElectron: bool, filePath: Option<string>)
      modifies this
      ensures hasElectron && filePath.Some? && filePath.value != "" ==> attachments == old(attachments) + [PickedFile(filePath.value)]
      ensures !(hasElectron && filePath.Some? && filePath.value != "") ==> attachments == old(attachments)
      ensures pending == old(pending) && resolutions == old(resolutions)
    {
      if hasElectron && filePath.Some? && filePath.value != "" {
        attachments := attachments + [PickedFile(filePath.value)];
      }
    }

    method RemoveAttachment(index: int)
      modifies this
      ensures attachments == RemoveAt(old(attachments), index)
      ensures pending == old(pending) && resolutions == old(resolutions)
    {
      attachments := RemoveAt(attachments, index);
    }

    /** `handleSend`: the route taken; both send paths clear the attachments. */
    method HandleSend(input: string, mode: Mode) returns (route: Route)
      modifies this
      ensures route == SendRoute(input, old(attachments), mode)
      ensures route.Agent? || route.Chat? ==> attachments == []
      ensures route.Nothing? || route.Slash? ==> attachments == old(attachments)
      ensures pending == old(pending) && resolutions == old(resolutions)
    {
      route := SendRoute(input, attachments, mode);
      if route.Agent? || route.Chat? {
        attachments := [];
      }
    }

    /** A permission request of the running agent is appended. */
    method OnPermissionRequest(req: PermissionRequest)
      modifies this
      ensures pending == old(pending) + [req]
      ensures attachments == old(attachments) && resolutions == old(resolutions)
    {
      pending := pending + [req];
    }

    /**
     * Approve or reject: one resolution for that request id (when the Electron
     * API is present) and only the entries with that id leave the list.
     */
    method Answer(req: PermissionRequest, approve: bool, hasElectron: bool)
      modifies this
      ensures pending == WithoutRequest(old(pending), req.requestId)
      ensures var d := if approve then Allow else Deny(RejectMessage);
        resolutions == old(resolutions) + (if hasElectron then [(req.requestId, d)] else [])
      ensures attachments == old(attachments)
    {
      var d := if approve then Allow else Deny(RejectMessage);
      if hasElectron {
        resolutions := resolutions + [(req.requestId, d)];
      }
      pending := WithoutRequest(pending, req.requestId);
    }
  }
}
