/**
 * The try-on page: its state variables, the handlers that change them, the
 * preview it shows, and when its Apply button is disabled. A React state
 * update is applied at once, and an awaited step (reading a file, obtaining the
 * camera, the generation request) is one atomic step whose outcome is a parameter.
 */
module TryOnPage {
  import opened Common
  import opened Js
  import Relay
  import VertexRoute

  /** The ids of the three category buttons. */
  const CategoryIds: seq<string> := ["makeup", "clothes", "style-advise"]

  /** A camera track; stopping it releases the device. */
  class Track {
    var stopped: bool

    constructor ()
      ensures !stopped
    {
      stopped := false;
    }

    method Stop()
      modifies this
      ensures stopped
    {
      stopped := true;
    }
  }

  /** A camera stream; `tracks` is what `getTracks()` returns. */
  class MediaStream {
    const tracks: seq<Track>

    constructor (tracks: seq<Track>)
      ensures this.tracks == tracks
    {
      this.tracks := tracks;
    }
  }

  /** The `<video>` element behind `videoRef`. */
  class VideoElement {
    var srcObject: MediaStream?

    constructor ()
      ensures srcObject == null
    {
      srcObject := null;
    }
  }

  /** What the preview area shows. */
  datatype PreviewPane = GeneratedPane(src: string) | StartPanel | VideoPane | UploadedPane(src: string)

  /** How the generation request ended: a JSON body with `generatedImageUrl`, or any failure. */
  datatype Reply = Delivered(generatedImageUrl: string) | Failed

  /** A `string | null` state variable as a JavaScript value. */
  function AsValue(o: Option<string>): Value {
    if o.Some? then Str(o.value) else Null
  }

  /** JavaScript truthiness of a `string | null` state variable. */
  predicate Present(o: Option<string>): (b: bool)
    ensures o.None? || o == Some("") ==> !b
    ensures o.Some? && |o.value| >= 1 ==> b
  {
    Truthy(AsValue(o))
  }

  /**
   * The `imageBase64` the page posts: the uploaded image (`null` when there is
   * none), replaced by the captured frame when the camera is active, the video
   * element is mounted and the canvas produced a frame.
   */
  function CapturedImage(uploaded: Option<string>, cameraActive: bool, videoMounted: bool,
                         frame: Option<string>): (v: Value)
    ensures cameraActive && videoMounted && frame.Some? ==> v == Str(frame.value)
    ensures !(cameraActive && videoMounted && frame.Some?) ==>
      (v == Null <==> uploaded.None?) && (uploaded.Some? ==> v == Str(uploaded.value))
    ensures v != Undefined
  {
    if cameraActive && videoMounted && frame.Some? then Str(frame.value)
    else if uploaded.Some? then Str(uploaded.value)
    else Null
  }

  /**
   * A request the page lets through, with its uploaded image or a non-empty
   * frame, passes the serverless relay's field check.
   */
  lemma AcceptedRequestPassesRelayCheck(uploaded: Option<string>, cameraActive: bool, videoMounted: bool,
                                        frame: Option<string>, prompt: string, category: string)
    requires !IsBlank(prompt)
    requires || (!cameraActive && Present(uploaded))
             || (cameraActive && videoMounted && frame.Some? && frame.value != "")
    ensures Relay.Prepare(RequestBody(CapturedImage(uploaded, cameraActive, videoMounted, frame),
                                      Str(prompt), Str(category)), true).Success?
  {
  }

  /**
   * At the Express route the page posts to: the posted image is a string
   * exactly when the camera captured a frame or a photo was uploaded. Without
   * one the route's `.replace` throws and it answers 500 whatever the model
   * would say; with one, its answer is decided by the model's reply to the
   * request built from that image.
   */
  lemma PostedBodyAtExpressRoute(uploaded: Option<string>, cameraActive: bool, videoMounted: bool,
                                 frame: Option<string>, prompt: string, category: string,
                                 g1: VertexRoute.GenerateRequest -> Option<VertexRoute.GenerateResponse>,
                                 g2: VertexRoute.GenerateRequest -> Option<VertexRoute.GenerateResponse>)
    ensures var image := CapturedImage(uploaded, cameraActive, videoMounted, frame);
            image.Str? <==> (cameraActive && videoMounted && frame.Some?) || uploaded.Some?
    ensures var image := CapturedImage(uploaded, cameraActive, videoMounted, frame);
            var body := RequestBody(image, Str(prompt), Str(category));
            !image.Str? ==> VertexRoute.Handle(body, g1) == VertexRoute.ErrorReply(500, VertexRoute.ProcessingError)
    ensures var image := CapturedImage(uploaded, cameraActive, videoMounted, frame);
            var body := RequestBody(image, Str(prompt), Str(category));
            image.Str? ==>
            var request := VertexRoute.BuildRequest(VertexRoute.StripDataUrlPrefix(image.s), Str(category), Str(prompt));
            g1(request) == g2(request) ==> VertexRoute.Handle(body, g1) == VertexRoute.Handle(body, g2)
  {
  }

  class TryOn {
    var selectedCategory: string
    var prompt: string
    var uploadedImage: Option<string>
    var generatedImage: Option<string>
    var isCameraActive: bool
    var isGenerating: bool
    /** `videoRef.current`: set while the `<video>` element is mounted, `null` otherwise. */
    var video: VideoElement?

    /** An uploaded image and an active camera exclude each other; the category is a listed one. */
    ghost predicate Valid(): (b: bool)
      reads this
      ensures b ==> selectedCategory == "makeup" || selectedCategory == "clothes" || selectedCategory == "style-advise"
      ensures b && isCameraActive ==> uploadedImage == None && !Preview().UploadedPane?
    {
      && !(uploadedImage.Some? && isCameraActive)
      && selectedCategory in CategoryIds
    }

    constructor ()
      ensures Valid()
      ensures selectedCategory == "makeup" && prompt == ""
      ensures uploadedImage == None && generatedImage == None
      ensures !isCameraActive && !isGenerating && video == null
    {
      selectedCategory := "makeup";
      prompt := "";
      uploadedImage := None;
      generatedImage := None;
      isCameraActive := false;
      isGenerating := false;
      video := null;
    }

    /** The guard of `handleApplyChanges`: a non-blank prompt and an image or a live camera. */
    function ApplyAccepted(): (r: bool)
      reads this
      ensures r <==> !IsBlank(prompt) && (Present(uploadedImage) || isCameraActive)
    {
      TrimEmptyIffBlank(prompt);
      !(Trim(prompt) == "" || (!Present(uploadedImage) && !isCameraActive))
    }

    /** The `disabled` expression of the Apply button. */
    function ApplyDisabled(): (r: bool)
      reads this
      ensures r <==> !ApplyAccepted() || isGenerating
      ensures r <==> IsBlank(prompt) || (!Present(uploadedImage) && !isCameraActive) || isGenerating
    {
      TrimEmptyIffBlank(prompt);
      Trim(prompt) == "" || (!Present(uploadedImage) && !isCameraActive) || isGenerating
    }

    /** The preview area's conditional rendering. */
    function Preview(): (p: PreviewPane)
      reads this
      ensures p.GeneratedPane? <==> Present(generatedImage)
      ensures p.GeneratedPane? ==> p.src == generatedImage.value
      ensures p == StartPanel <==> !Present(generatedImage) && !Present(uploadedImage) && !isCameraActive
      ensures p == VideoPane <==> !Present(generatedImage) && isCameraActive
      ensures p.UploadedPane? ==> uploadedImage.Some? && p.src == uploadedImage.value && !isCameraActive
    {
      if Present(generatedImage) then GeneratedPane(generatedImage.value)
      else if !Present(uploadedImage) && !isCameraActive then StartPanel
      else if isCameraActive then VideoPane
      else UploadedPane(uploadedImage.value)
    }

    /** The tracks of the stream held by the video element, if any. */
    function HeldTracks(): (r: seq<Track>)
      reads this, video
      ensures video == null || video.srcObject == null ==> r == []
      ensures video != null && video.srcObject != null ==> r == video.srcObject.tracks
    {
      if video != null && video.srcObject != null then video.srcObject.tracks else []
    }

    /** A category button: its id comes from the fixed list. */
    method SelectCategory(k: nat)
      requires Valid() && k < |CategoryIds|
      modifies this`selectedCategory
      ensures Valid() && selectedCategory == CategoryIds[k]
    {
      selectedCategory := CategoryIds[k];
    }

    /** The prompt text area. */
    method SetPrompt(text: string)
      requires Valid()
      modifies this`prompt
      ensures Valid() && prompt == text
    {
      prompt := text;
    }

    /** `videoRef.current` is set exactly while the video pane is shown. */
    ghost predicate MountedAsRendered()
      reads this
    {
      video != null <==> Preview() == VideoPane
    }

    /**
     * React committing a render of the preview as written: `<video ref={videoRef}>`
     * exists only in the video pane, so `videoRef` is attached there and detached
     * everywhere else. `element` is the element a new mount creates.
     */
    method RenderAsWritten(element: VideoElement)
      requires Valid()
      modifies this`video
      ensures Valid() && MountedAsRendered()
      ensures Preview() == VideoPane && old(video) != null ==> video == old(video)
      ensures Preview() == VideoPane && old(video) == null ==> video == element
    {
      if Preview() != VideoPane {
        video := null;
      } else if video == null {
        video := element;
      }
    }

    /**
     * A render in which the video element stays mounted, hidden outside the
     * video pane; an element once mounted is kept.
     */
    method RenderWithHiddenVideo(element: VideoElement)
      requires Valid()
      modifies this`video
      ensures Valid() && video != null
      ensures old(video) != null ==> video == old(video)
      ensures old(video) == null ==> video == element
    {
      if video == null {
        video := element;
      }
    }

    /**
     * `handleFileUpload` with the read completed: `file` is the data URL read,
     * `None` when no file was chosen.
     */
    method HandleFileUpload(file: Option<string>)
      requires Valid()
      modifies this`uploadedImage, this`isCameraActive
      ensures Valid()
      ensures file.None? ==> uploadedImage == old(uploadedImage) && isCameraActive == old(isCameraActive)
      ensures file.Some? ==> uploadedImage == file && !isCameraActive
      ensures generatedImage == old(generatedImage) && prompt == old(prompt)
    {
      if file.Some? {
        uploadedImage := file;
        isCameraActive := false;
      }
    }

    /**
     * `enableCamera`: `stream` is what `getUserMedia` resolved to, `null` when
     * access was denied. The camera becomes active only if the video element is
     * mounted; a stream held before is replaced without being stopped.
     */
    method EnableCamera(stream: MediaStream?)
      requires Valid()
      modifies this`uploadedImage, this`isCameraActive, video
      ensures Valid()
      ensures stream != null && video != null ==>
        video.srcObject == stream && isCameraActive && uploadedImage == None
      ensures stream == null || video == null ==>
        && uploadedImage == old(uploadedImage) && isCameraActive == old(isCameraActive)
        && (video != null ==> video.srcObject == old(video.srcObject))
      ensures generatedImage == old(generatedImage) && prompt == old(prompt)
      ensures stream != null ==> forall t :: t in stream.tracks ==> t.stopped == old(t.stopped)
    {
      if stream != null && video != null {
        video.srcObject := stream;
        isCameraActive := true;
        uploadedImage := None;
      }
    }

    /**
     * The "Enable Camera" button as the page renders it. The button is shown
     * only in the start panel, where no `<video>` element is mounted, so
     * `videoRef.current` is null when the stream arrives: the camera stays off
     * and a granted stream is dropped without its tracks being stopped.
     */
    method EnableCameraAsWritten(stream: MediaStream?)
      requires Valid() && MountedAsRendered() && Preview() == StartPanel
      modifies this`uploadedImage, this`isCameraActive, video
      ensures Valid() && !isCameraActive && Preview() == StartPanel
      ensures uploadedImage == old(uploadedImage) && generatedImage == old(generatedImage)
      ensures stream != null ==> forall t :: t in stream.tracks ==> t.stopped == old(t.stopped)
    {
      EnableCamera(stream);
    }

    /**
     * The same button with the video element kept mounted: a granted stream
     * becomes the element's source and the preview switches to the video pane;
     * a denied one leaves the start panel.
     */
    method EnableCameraWithHiddenVideo(stream: MediaStream?)
      requires Valid() && video != null && Preview() == StartPanel
      modifies this`uploadedImage, this`isCameraActive, video
      ensures Valid()
      ensures stream != null ==> isCameraActive && Preview() == VideoPane && video.srcObject == stream
      ensures stream == null ==> !isCameraActive && Preview() == StartPanel
    {
      EnableCamera(stream);
    }

    /** `handleReset`: clear both images, deactivate the camera, stop every held track. */
    method Reset()
      requires Valid()
      modifies this`uploadedImage, this`generatedImage, this`isCameraActive, video, HeldTracks()
      ensures Valid()
      ensures uploadedImage == None && generatedImage == None && !isCameraActive
      ensures Preview() == StartPanel
      ensures forall t :: t in old(HeldTracks()) ==> t.stopped
      ensures video == old(video) && (video != null ==> video.srcObject == null)
      ensures prompt == old(prompt) && selectedCategory == old(selectedCategory)
    {
      uploadedImage := None;
      generatedImage := None;
      isCameraActive := false;
      if video != null && video.srcObject != null {
        var tracks := video.srcObject.tracks;
        for i := 0 to |tracks|
          invariant forall j :: 0 <= j < i ==> tracks[j].stopped
          invariant uploadedImage == None && generatedImage == None && !isCameraActive
        {
          tracks[i].Stop();
        }
        video.srcObject := null;
      }
    }

    /**
     * The synchronous part of `handleApplyChanges`: the guard, then
     * `isGenerating` and the body to post. `frame` is the canvas capture, `None`
     * when no 2D context was available.
     */
    method StartApply(frame: Option<string>) returns (body: Option<RequestBody>)
      requires Valid()
      modifies this`isGenerating
      ensures Valid()
      ensures body.Some? <==> ApplyAccepted()
      ensures body.None? ==> isGenerating == old(isGenerating)
      ensures body.Some? ==> isGenerating
      ensures body.Some? ==> body.value == RequestBody(
        CapturedImage(uploadedImage, isCameraActive, video != null, frame),
        Str(prompt), Str(selectedCategory))
    {
      if !ApplyAccepted() {
        return None;
      }
      isGenerating := true;
      var imageBase64 := CapturedImage(uploadedImage, isCameraActive, video != null, frame);
      body := Some(RequestBody(imageBase64, Str(prompt), Str(selectedCategory)));
    }

    /** The rest of `handleApplyChanges` once the request has settled. */
    method FinishApply(reply: Reply)
      requires Valid()
      modifies this`generatedImage, this`isGenerating
      ensures Valid() && !isGenerating
      ensures reply.Delivered? ==> generatedImage == Some(reply.generatedImageUrl)
      ensures reply.Failed? ==> generatedImage == old(generatedImage)
    {
      if reply.Delivered? {
        generatedImage := Some(reply.generatedImageUrl);
      }
      isGenerating := false;
    }

    /** `handleApplyChanges` from the click to the `finally` block. */
    method ApplyChanges(frame: Option<string>, reply: Reply) returns (body: Option<RequestBody>)
      requires Valid()
      modifies this`generatedImage, this`isGenerating
      ensures Valid()
      ensures body.Some? <==> old(ApplyAccepted())
      ensures body.None? ==> isGenerating == old(isGenerating) && generatedImage == old(generatedImage)
      ensures body.Some? ==> !isGenerating
      ensures body.Some? && reply.Delivered? ==> generatedImage == Some(reply.generatedImageUrl)
      ensures body.Some? && reply.Failed? ==> generatedImage == old(generatedImage)
    {
      body := StartApply(frame);
      if body.Some? {
        FinishApply(reply);
      }
    }
  }
}
