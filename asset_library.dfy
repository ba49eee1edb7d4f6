/** The asset library: assets made from uploaded files and from the
    generative service, and the generation panel's state flags. The
    service calls, the blob URLs and the random ids are parameters. */
module AssetLibrary {
  import opened Seqs
  import opened Types
  import opened App

  /** The uploaded `File`: its name and MIME type. */
  datatype FileInfo = FileInfo(name: string, mimeType: string)

  predicate StartsWith(s: string, prefix: string) {
    |prefix| <= |s| && s[..|prefix|] == prefix
  }

  /** `file.type.startsWith('video') ? 'video' : 'image'`. */
  function UploadKind(mimeType: string): (k: AssetType)
    ensures k == VideoAsset <==> StartsWith(mimeType, "video")
    ensures k == ImageAsset <==> !StartsWith(mimeType, "video")
  {
    if StartsWith(mimeType, "video") then VideoAsset else ImageAsset
  }

  /** `handleFileUpload` given the first selected file (if any), a fresh id
      and the object URL made for it: no file, no asset. */
  function UploadedAsset(file: Option<FileInfo>, freshId: string, url: string): (r: Option<Asset>)
    ensures r.None? <==> file.None?
    ensures r.Some? ==> r.value.id == freshId && r.value.url == url && r.value.name == file.value.name
    ensures r.Some? ==> (r.value.kind == VideoAsset <==> StartsWith(file.value.mimeType, "video"))
  {
    match file
    case None => None
    case Some(f) => Some(Asset(freshId, UploadKind(f.mimeType), url, f.name))
  }

  /** `prompt.slice(0, 15)`. */
  function PromptPrefix(prompt: string): string {
    if |prompt| <= 15 then prompt else prompt[..15]
  }

  /** A generated asset's name: it starts with the tag, ends with "...",
      and between them holds the prompt itself when it is at most fifteen
      characters long and otherwise its first fifteen characters. */
  function GeneratedName(tag: string, prompt: string): (n: string)
    ensures var k := if |prompt| < 15 then |prompt| else 15;
            && |n| == |tag| + k + 3
            && n[..|tag|] == tag
            && n[|tag|..|tag| + k] == prompt[..k]
            && n[|tag| + k..] == "..."
  {
    var k := if |prompt| < 15 then |prompt| else 15;
    var n := tag + PromptPrefix(prompt) + "...";
    assert PromptPrefix(prompt) == prompt[..k];
    assert n[|tag|..|tag| + k] == prompt[..k];
    n
  }

  datatype GenMode = ImageMode | VideoMode | ScriptMode

  datatype Tab = MediaTab | AiTab

  /** What the generative service returned: a failure (any thrown error,
      including a missing key), or a media URL (image and video modes) or
      the script text (script mode). */
  datatype GenOutcome = GenFailed | GenSucceeded(payload: string)

  /** The request `handleGenerate` works on: the prompt and mode it read
      when it started. */
  datatype GenRequest = GenRequest(prompt: string, mode: GenMode)

  /** The asset a finished request adds: image mode gives an image named
      "AI: ...", video mode a video named "Veo: ...", script mode and any
      failure give none. */
  function GeneratedAsset(req: GenRequest, outcome: GenOutcome, freshId: string): (r: Option<Asset>)
    ensures outcome.GenFailed? || req.mode == ScriptMode ==> r.None?
    ensures outcome.GenSucceeded? && req.mode == ImageMode ==>
              r == Some(Asset(freshId, ImageAsset, outcome.payload, GeneratedName("AI: ", req.prompt)))
    ensures outcome.GenSucceeded? && req.mode == VideoMode ==>
              r == Some(Asset(freshId, VideoAsset, outcome.payload, GeneratedName("Veo: ", req.prompt)))
  {
    match outcome
    case GenFailed => None
    case GenSucceeded(payload) =>
      match req.mode
      case ImageMode => Some(Asset(freshId, ImageAsset, payload, GeneratedName("AI: ", req.prompt)))
      case VideoMode => Some(Asset(freshId, VideoAsset, payload, GeneratedName("Veo: ", req.prompt)))
      case ScriptMode => None
  }

  /** The AI panel's local state. */
  class Generator {
    var activeTab: Tab
    var prompt: string
    var isGenerating: bool
    var genMode: GenMode
    var generatedResult: Option<string>

    constructor ()
      ensures activeTab == MediaTab && prompt == "" && !isGenerating
      ensures genMode == ImageMode && generatedResult.None?
    {
      activeTab := MediaTab;
      prompt := "";
      isGenerating := false;
      genMode := ImageMode;
      generatedResult := None;
    }

    /** The Generate button is enabled: no request is running and the
      prompt is not empty. */
    predicate CanGenerate()
      reads this
      ensures CanGenerate() <==> !isGenerating && |prompt| > 0
    {
      !isGenerating && prompt != ""
    }

    method SetPrompt(text: string)
      modifies this
      ensures prompt == text
      ensures activeTab == old(activeTab) && isGenerating == old(isGenerating)
      ensures genMode == old(genMode) && generatedResult == old(generatedResult)
    {
      prompt := text;
    }

    method SetGenMode(m: GenMode)
      modifies this
      ensures genMode == m
      ensures activeTab == old(activeTab) && isGenerating == old(isGenerating)
      ensures prompt == old(prompt) && generatedResult == old(generatedResult)
    {
      genMode := m;
    }

    method SetActiveTab(t: Tab)
      modifies this
      ensures activeTab == t
      ensures genMode == old(genMode) && isGenerating == old(isGenerating)
      ensures prompt == old(prompt) && generatedResult == old(generatedResult)
    {
      activeTab := t;
    }

    /** The synchronous start of `handleGenerate`: with an empty prompt it
      returns at once and changes nothing; otherwise it raises the
      generating flag, clears the previous result and captures the request. */
    method BeginGenerate() returns (req: Option<GenRequest>)
      modifies this
      ensures old(prompt) == "" ==> req.None? && unchanged(this)
      ensures old(prompt) != "" ==>
                && req == Some(GenRequest(old(prompt), old(genMode)))
                && isGenerating && generatedResult.None?
                && prompt == old(prompt) && genMode == old(genMode) && activeTab == old(activeTab)
      ensures old(CanGenerate()) ==> req.Some? && !CanGenerate()
    {
      if prompt == "" {
        return None;
      }
      isGenerating := true;
      generatedResult := None;
      req := Some(GenRequest(prompt, genMode));
    }

    /** The rest of `handleGenerate` once the service has answered: the
      asset, if any, goes to `onAddAsset`; a script is stored as the result;
      the generating flag is lowered on success and failure alike. */
    method FinishGenerate(req: GenRequest, outcome: GenOutcome, freshId: string, editor: Editor)
      modifies this, editor
      ensures !isGenerating
      ensures var a := GeneratedAsset(req, outcome, freshId);
              editor.assets == old(editor.assets) + (if a.Some? then [a.value] else [])
      ensures editor.project == old(editor.project)
      ensures generatedResult ==
                if req.mode == ScriptMode && outcome.GenSucceeded? then Some(outcome.payload) else old(generatedResult)
      ensures prompt == old(prompt) && genMode == old(genMode) && activeTab == old(activeTab)
    {
      var a := GeneratedAsset(req, outcome, freshId);
      if a.Some? {
        editor.HandleAddAsset(a.value);
      }
      if req.mode == ScriptMode && outcome.GenSucceeded? {
        generatedResult := Some(outcome.payload);
      }
      isGenerating := false;
    }
  }

  /** `handleFileUpload`, wired to `onAddAsset`. */
  method HandleFileUpload(file: Option<FileInfo>, freshId: string, url: string, editor: Editor)
    modifies editor
    ensures var a := UploadedAsset(file, freshId, url);
            editor.assets == old(editor.assets) + (if a.Some? then [a.value] else [])
    ensures editor.project == old(editor.project)
  {
    var a := UploadedAsset(file, freshId, url);
    if a.Some? {
      editor.HandleAddAsset(a.value);
    }
  }

  /** A whole generation from the moment the button is pressed: an empty
      prompt changes nothing; otherwise the asset made from the prompt and
      mode read at the start, if any, is appended to the library, so a
      failure or a script adds nothing and a success in image or video mode
      adds exactly one asset; the project is untouched and the flag is down
      at the end. */
  method Generate(gen: Generator, editor: Editor, outcome: GenOutcome, freshId: string)
      returns (added: nat)
    modifies gen, editor
    ensures !gen.isGenerating || old(gen.isGenerating && gen.prompt == "")
    ensures gen.prompt == old(gen.prompt) && gen.genMode == old(gen.genMode) && gen.activeTab == old(gen.activeTab)
    ensures old(gen.prompt) == "" ==>
              gen.isGenerating == old(gen.isGenerating) && gen.generatedResult == old(gen.generatedResult)
    ensures old(gen.prompt) != "" ==>
              && !gen.isGenerating
              && gen.generatedResult ==
                   (if old(gen.genMode) == ScriptMode && outcome.GenSucceeded? then Some(outcome.payload) else None)
    ensures editor.project == old(editor.project)
    ensures old(gen.prompt) == "" ==> editor.assets == old(editor.assets)
    ensures old(gen.prompt) != "" ==>
              var a := GeneratedAsset(GenRequest(old(gen.prompt), old(gen.genMode)), outcome, freshId);
              editor.assets == old(editor.assets) + (if a.Some? then [a.value] else [])
    ensures |editor.assets| == |old(editor.assets)| + added
    ensures added == (if old(gen.prompt) != "" && outcome.GenSucceeded? && old(gen.genMode) != ScriptMode then 1 else 0)
  {
    var req := gen.BeginGenerate();
    added := 0;
    if req.Some? {
      gen.FinishGenerate(req.value, outcome, freshId, editor);
      if GeneratedAsset(req.value, outcome, freshId).Some? {
        added := 1;
      }
    }
  }
}
