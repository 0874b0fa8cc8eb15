/** The capture component: either a live camera, from which one still frame
    is snapped as a JPEG file, or a file picked from the gallery. It owns the
    camera stream while the camera view is open and stops every track of it
    when the view closes. Device access (`getUserMedia`) and the canvas
    (`getContext`, `toBlob`) are foreign; their outcomes are parameters. */
module Uploader {
  import opened Wrappers
  import opened Types

  const CameraAccessMessage := "Could not access camera. Please check permissions."
  const CapturedFileName := "captured_photo.jpg"
  const CapturedMimeType := "image/jpeg"

  /** One track of a camera stream; `stop()` ends it for good. */
  class MediaStreamTrack {
    var ended: bool

    constructor ()
      ensures !ended
    {
      ended := false;
    }

    method Stop()
      modifies this
      ensures ended
    {
      ended := true;
    }
  }

  /** A camera stream, as `getUserMedia` grants it. */
  class MediaStream {
    const tracks: seq<MediaStreamTrack>

    constructor (tracks: seq<MediaStreamTrack>)
      ensures this.tracks == tracks
    {
      this.tracks := tracks;
    }
  }

  /** The tracks of a possibly absent stream. */
  function TracksOf(s: MediaStream?): set<MediaStreamTrack>
  {
    if s == null then {} else set t | t in s.tracks
  }

  /** `stream.getTracks().forEach(track => track.stop())`. */
  method StopTracks(s: MediaStream)
    modifies TracksOf(s)
    ensures forall t | t in TracksOf(s) :: t.ended
  {
    for i := 0 to |s.tracks|
      invariant forall k :: 0 <= k < i ==> s.tracks[k].ended
    {
      s.tracks[i].Stop();
    }
  }

  /** What the snapshot finds when "Snap!" is pressed: whether the video and
      canvas elements are mounted, whether the canvas yields a 2-D context,
      and the blob `toBlob` hands to its callback (`None` for `null`). */
  datatype CaptureSurface = CaptureSurface(hasVideo: bool, hasCanvas: bool, hasContext: bool, blob: Option<Blob>)

  /** The three state variables of the component. */
  datatype CameraView = CameraView(isCameraOpen: bool, stream: MediaStream?, cameraError: Option<string>)

  /** The view after `stopCamera`: no stream, camera closed, error kept. */
  function Stopped(v: CameraView): CameraView
  {
    v.(isCameraOpen := false, stream := null)
  }

  /** Stopping the camera twice is the same as stopping it once. */
  lemma StopIsIdempotent(v: CameraView)
    ensures Stopped(Stopped(v)) == Stopped(v)
    ensures Stopped(v).stream == null && !Stopped(v).isCameraOpen
    ensures Stopped(v).cameraError == v.cameraError
  {
  }

  class ImageUploader {
    var isCameraOpen: bool
    var stream: MediaStream?
    var cameraError: Option<string>
    /** The `value` of the hidden gallery file input. */
    var inputValue: string

    /** The camera view is open exactly when a stream is held, so a new
        stream is never requested while another one is live. */
    ghost predicate Valid()
      reads this
    {
      isCameraOpen <==> stream != null
    }

    function View(): CameraView
      reads this
    {
      CameraView(isCameraOpen, stream, cameraError)
    }

    constructor ()
      ensures Valid()
      ensures View() == CameraView(false, null, None) && inputValue == ""
    {
      isCameraOpen, stream, cameraError, inputValue := false, null, None, "";
    }

    /** `startCamera`: clears the previous error, then asks for the camera;
        `acquired` is the stream granted, `None` when access is refused.
        The "Open Camera" button exists only on the selection menu, that is,
        while the camera view is closed. */
    method StartCamera(acquired: Option<MediaStream>)
      requires Valid() && !isCameraOpen
      modifies this
      ensures Valid() && inputValue == old(inputValue)
      ensures acquired.Some? ==> View() == CameraView(true, acquired.value, None)
      ensures acquired.None? ==> View() == CameraView(false, null, Some(CameraAccessMessage))
    {
      cameraError := None;
      match acquired
      case Some(s) =>
        stream := s;
        isCameraOpen := true;
      case None =>
        cameraError := Some(CameraAccessMessage);
    }

    /** `stopCamera` (also the "Cancel" button): stops every track of the
        held stream and drops it, then closes the camera view. It emits no
        image. */
    method StopCamera()
      requires Valid()
      modifies this, TracksOf(stream)
      ensures Valid() && inputValue == old(inputValue)
      ensures View() == Stopped(old(View()))
      ensures forall t | t in TracksOf(old(stream)) :: t.ended
    {
      if stream != null {
        StopTracks(stream);
        stream := null;
      }
      isCameraOpen := false;
    }

    /** The clean-up of the stream effect, run when the component unmounts:
        stops every track of the stream it still holds. */
    method Unmount()
      modifies TracksOf(stream)
      ensures forall t | t in TracksOf(stream) :: t.ended
    {
      if stream != null {
        StopTracks(stream);
      }
    }

    /** `capturePhoto`: with the video, the canvas, a 2-D context and a blob
        all present, emits one JPEG file named "captured_photo.jpg" holding
        the blob, then stops the camera; if any of them is missing it emits
        nothing and changes nothing. The "Snap!" button exists only in the
        camera view. */
    method CapturePhoto(surface: CaptureSurface) returns (emitted: Option<ImageFile>)
      requires Valid() && isCameraOpen
      modifies this, TracksOf(stream)
      ensures Valid() && inputValue == old(inputValue)
      ensures surface.hasVideo && surface.hasCanvas && surface.hasContext && surface.blob.Some? ==>
        && emitted == Some(ImageFile(CapturedFileName, CapturedMimeType, surface.blob.value))
        && View() == Stopped(old(View()))
        && forall t | t in TracksOf(old(stream)) :: t.ended
      ensures !(surface.hasVideo && surface.hasCanvas && surface.hasContext && surface.blob.Some?) ==>
        emitted == None && unchanged(this) && unchanged(TracksOf(old(stream)))
    {
      emitted := None;
      if surface.hasVideo && surface.hasCanvas && surface.hasContext {
        match surface.blob
        case Some(blob) =>
          emitted := Some(ImageFile(CapturedFileName, CapturedMimeType, blob));
          StopCamera();
        case None =>
      }
    }

    /** `handleFileChange`: emits the first selected file, if any (`files`
        is `None` when the input reports no file list), and always clears
        the input so that the same file can be picked again. */
    method HandleFileChange(files: Option<seq<ImageFile>>) returns (emitted: Option<ImageFile>)
      modifies this`inputValue
      ensures inputValue == ""
      ensures emitted.Some? <==> files.Some? && files.value != []
      ensures emitted.Some? ==> emitted.value == files.value[0]
    {
      emitted := None;
      if files.Some? && files.value != [] {
        emitted := Some(files.value[0]);
      }
      inputValue := "";
    }
  }
}
