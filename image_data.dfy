/**
 * The image-side collaborators that the settings panel and the header read and
 * update: an image's info record and the image configuration that owns it and
 * keeps the history of rendering edits. Only the fields and calls the panels
 * use are modelled; the configuration's own history bookkeeping (undo and
 * redo of an entry) is not part of this model and is recorded as a log of
 * calls.
 */
module ImageData {

  /** A channel's rendering window, treated as integral. */
  datatype Window = Window(start: int, end: int)

  /** One channel of `image_info.channels`. */
  datatype Channel = Channel(active: bool, window: Window, color: string)

  /** A value recorded in a history entry. */
  datatype Value = Str(s: string) | Bool(b: bool) | Num(n: int)

  /** The `type` tag of a history entry: 'string', 'boolean' or 'number'. */
  datatype ValueType = StringType | BooleanType | NumberType

  /** `{prop, old_val, new_val, type}`: one recorded change of a property path. */
  datatype HistoryEntry = HistoryEntry(prop: seq<string>, oldVal: Value, newVal: Value, valueType: ValueType)

  const GREYSCALE: string := "greyscale"
  const COLOR: string := "color"

  /** The `image_info` object: the fields the panels read or write. */
  class ImageInfo {
    var imageId: nat
    var imageName: string
    /** 'greyscale' or 'color' */
    var model: string
    var projection: string
    /** 0-based current time point and z-section */
    var t: int
    var z: int
    /** the pixel range `range[0]`, `range[1]` */
    var rangeStart: int
    var rangeEnd: int
    var channels: seq<Channel>

    constructor (imageId: nat, imageName: string, model: string, channels: seq<Channel>)
      ensures this.imageId == imageId && this.imageName == imageName
      ensures this.model == model && this.channels == channels
      ensures projection == "normal" && t == 0 && z == 0 && rangeStart == 0 && rangeEnd == 0
    {
      this.imageId := imageId;
      this.imageName := imageName;
      this.model := model;
      this.channels := channels;
      projection := "normal";
      t, z := 0, 0;
      rangeStart, rangeEnd := 0, 0;
    }
  }

  /**
   * The image configuration: owns the image info and receives history records
   * (`addHistory`), undo/redo requests and change notifications (`changed`).
   */
  class ImageConfig {
    const imageInfo: ImageInfo
    /** every argument `addHistory` has received, oldest first */
    var history: seq<seq<HistoryEntry>>
    /** how often `undoHistory` and `redoHistory` were called */
    var undoCalls: nat
    var redoCalls: nat
    /** how often `changed` was called */
    var revision: nat

    constructor (info: ImageInfo)
      ensures imageInfo == info && history == [] && undoCalls == 0 && redoCalls == 0 && revision == 0
    {
      imageInfo := info;
      history := [];
      undoCalls, redoCalls, revision := 0, 0, 0;
    }

    method AddHistory(entries: seq<HistoryEntry>)
      modifies this
      ensures history == old(history) + [entries]
      ensures undoCalls == old(undoCalls) && redoCalls == old(redoCalls) && revision == old(revision)
    {
      history := history + [entries];
    }

    method UndoHistory()
      modifies this
      ensures undoCalls == old(undoCalls) + 1
      ensures history == old(history) && redoCalls == old(redoCalls) && revision == old(revision)
    {
      undoCalls := undoCalls + 1;
    }

    method RedoHistory()
      modifies this
      ensures redoCalls == old(redoCalls) + 1
      ensures history == old(history) && undoCalls == old(undoCalls) && revision == old(revision)
    {
      redoCalls := redoCalls + 1;
    }

    method Changed()
      modifies this
      ensures revision == old(revision) + 1
      ensures history == old(history) && undoCalls == old(undoCalls) && redoCalls == old(redoCalls)
    {
      revision := revision + 1;
    }
  }
}
