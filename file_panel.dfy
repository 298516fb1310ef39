/**
 * The file panel (src/components/sidebar/file-panel.tsx): the same listing
 * and expand toggle as the file tree, a root path, the selected file and a
 * preview of its content cut to 2000 characters.
 */
module FilePanel {
  import opened Wrappers
  import opened JsString
  import opened FileTree

  const PreviewLimit := 2000

  /** `{ name, content, type }` of the previewed file. */
  datatype Preview = Preview(name: string, content: string, fileType: string)

  /** `readFile`'s answer: success and the base64 content. */
  datatype ReadResult = ReadResult(success: bool, content: string)

  /** The shown part of a preview: `content.slice(0, 2000)`. */
  function PreviewText(content: string): (r: string)
    ensures |r| <= PreviewLimit && |r| <= |content| && r == content[..|r|]
    ensures |content| <= PreviewLimit ==> r == content
  {
    Take(content, PreviewLimit)
  }

  /** The '... (还有 n 字符)' note: how many characters are not shown, only when some are not. */
  function Remaining(content: string): (r: Option<nat>)
    ensures r.Some? <==> |content| > PreviewLimit
    ensures r.Some? ==> |PreviewText(content)| + r.value == |content|
  {
    if |content| > PreviewLimit then Some(|content| - PreviewLimit) else None
  }

  /** The shown text and the hidden rest make up the content. */
  lemma PreviewSplit(content: string)
    ensures PreviewText(content) + content[|PreviewText(content)|..] == content
    ensures Remaining(content).Some? ==> |content[|PreviewText(content)|..]| == Remaining(content).value
  {
  }

  class Panel {
    var rootPath: string
    var files: seq<Node>
    var selectedFile: Option<string>
    var previewContent: Option<Preview>

    constructor ()
      ensures rootPath == "" && files == [] && selectedFile.None? && previewContent.None?
    {
      rootPath := "";
      files := [];
      selectedFile := None;
      previewContent := None;
    }

    /** The mount effect: with the Electron API the home directory (`homePath`) becomes the root and is listed. */
    method Mount(homePath: Option<string>, entries: Option<seq<Entry>>)
      modifies this
      ensures homePath.None? ==> rootPath == old(rootPath) && files == old(files)
      ensures homePath.Some? ==>
        rootPath == homePath.value &&
        files == (if homePath.value != "" && entries.Some? then Listing(entries.value) else old(files))
      ensures selectedFile == old(selectedFile) && previewContent == old(previewContent)
    {
      if homePath.Some? {
        rootPath := homePath.value;
        LoadFiles(homePath.value, entries);
      }
    }

    /** `loadFiles`: nothing without the Electron API (`entries` absent) or for an empty path; else the listing replaces the tree. */
    method LoadFiles(dirPath: string, entries: Option<seq<Entry>>)
      modifies this
      ensures dirPath == "" || entries.None? ==> files == old(files)
      ensures dirPath != "" && entries.Some? ==> files == Listing(entries.value)
      ensures rootPath == old(rootPath) && selectedFile == old(selectedFile) && previewContent == old(previewContent)
    {
      if entries.None? || dirPath == "" {
        return;
      }
      files := Listing(entries.value);
    }

    /** `toggleDirectory`, as in the file tree: install the loaded children when none are shown, else flip `expanded`. */
    method ToggleDirectory(node: Node, entries: Option<seq<Entry>>)
      modifies this
      ensures !node.isDirectory ==> files == old(files)
      ensures node.isDirectory && |node.children| == 0 ==>
        files == (if entries.Some? then InstallNodes(old(files), node.path, Listing(entries.value)) else old(files))
      ensures node.isDirectory && |node.children| > 0 ==> files == UpdateNodes(old(files), node.path)
      ensures rootPath == old(rootPath) && selectedFile == old(selectedFile) && previewContent == old(previewContent)
    {
      if !node.isDirectory {
        return;
      }
      if |node.children| == 0 {
        if entries.Some? {
          files := InstallNodes(files, node.path, Listing(entries.value));
        }
      } else {
        files := UpdateNodes(files, node.path);
      }
    }

    /**
     * `handleSelectFile`: a directory is toggled; a file becomes the
     * selection and, when it was read successfully with non-empty content,
     * the preview, typed by the text after its last '.'. `atob` is a parameter;
     * `None` is the exception it throws on text that is not base64, which
     * leaves the preview as it was while the selection has already moved.
     */
    method SelectFile(node: Node, entries: Option<seq<Entry>>, read: Option<ReadResult>, atob: string -> Option<string>)
      modifies this
      ensures node.isDirectory ==> selectedFile == old(selectedFile) && previewContent == old(previewContent)
      ensures node.isDirectory && |node.children| == 0 ==>
        files == (if entries.Some? then InstallNodes(old(files), node.path, Listing(entries.value)) else old(files))
      ensures node.isDirectory && |node.children| > 0 ==> files == UpdateNodes(old(files), node.path)
      ensures !node.isDirectory ==> files == old(files) && selectedFile == Some(node.path)
      ensures !node.isDirectory && read.Some? && read.value.success && read.value.content != "" && atob(read.value.content).Some? ==>
        previewContent == Some(Preview(node.name, atob(read.value.content).value, LastPiece(node.name, '.')))
      ensures !node.isDirectory && !(read.Some? && read.value.success && read.value.content != "" && atob(read.value.content).Some?) ==>
        previewContent == old(previewContent)
      ensures rootPath == old(rootPath)
    {
      if node.isDirectory {
        ToggleDirectory(node, entries);
      } else {
        selectedFile := Some(node.path);
        if read.Some? && read.value.success && read.value.content != "" {
          var ext := LastPiece(node.name, '.');
          var content := atob(read.value.content);
          if content.Some? {
            previewContent := Some(Preview(node.name, content.value, ext));
          }
        }
      }
    }

    /** `handleSelectDirectory`: a chosen path becomes the root, is listed, and the preview is closed; a cancelled dialog changes nothing. */
    method SelectDirectory(dirPath: Option<string>, entries: Option<seq<Entry>>)
      modifies this
      ensures dirPath.None? || dirPath.value == "" ==>
        rootPath == old(rootPath) && files == old(files) && previewContent == old(previewContent)
      ensures dirPath.Some? && dirPath.value != "" ==>
        rootPath == dirPath.value && previewContent.None? &&
        files == (if entries.Some? then Listing(entries.value) else old(files))
      ensures selectedFile == old(selectedFile)
    {
      if dirPath.Some? && dirPath.value != "" {
        rootPath := dirPath.value;
        LoadFiles(dirPath.value, entries);
        previewContent := None;
      }
    }

    /** The close button of the preview. */
    method ClosePreview()
      modifies this
      ensures previewContent.None?
      ensures rootPath == old(rootPath) && files == old(files) && selectedFile == old(selectedFile)
    {
      previewContent := None;
    }
  }
}
