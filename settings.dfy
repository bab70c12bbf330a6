/**
 * The rendering-settings panel (`src/controls/settings.js`): it encodes the
 * channels of the current image into the `c=` parameter of the save and copy
 * requests, pastes copied rendering settings into the image info while
 * recording each change as a history entry, records model switches, and
 * forwards undo/redo to the image configuration.
 */
module RenderSettings {
  import opened Wrappers
  import opened Strings
  import opened ImageData

  // ---------------------------------------------------------------------------
  // the channel parameter string `[-]idx|start:end$color,...`
  // ---------------------------------------------------------------------------

  /** The entry of the channel at 0-based position `i`: the index is written 1-based, and '-' marks an inactive channel. */
  function ChannelEntry(i: nat, c: Channel): string {
    ActivityMarker(c.active) + NatToString(i + 1) + "|" + WindowText(c)
  }

  function ActivityMarker(active: bool): string {
    if active then "" else "-"
  }

  /** The `start:end$color` part of an entry. */
  function WindowText(c: Channel): string {
    IntToString(c.window.start) + ":" + IntToString(c.window.end) + "$" + c.color
  }

  /** The whole channel parameter: the entries of all channels, separated by commas. */
  function ChannelParameters(channels: seq<Channel>): string
    decreases |channels|
  {
    if |channels| == 0 then ""
    else
      var n := |channels| - 1;
      ChannelParameters(channels[..n]) + (if n != 0 then "," else "") + ChannelEntry(n, channels[n])
  }

  function ChannelEntries(channels: seq<Channel>): (entries: seq<string>)
    ensures |entries| == |channels|
  {
    seq(|channels|, i requires 0 <= i < |channels| => ChannelEntry(i, channels[i]))
  }

  /** Reads `start:end$color` back into a channel with the given activity. */
  function DecodeWindowText(t: string, active: bool): Option<Channel> {
    match SplitFirst(t, ':')
    case None => None
    case Some((start, rest)) =>
      match SplitFirst(rest, '$')
      case None => None
      case Some((end, color)) =>
        match (ParseInt(start), ParseInt(end))
        case (Some(lo), Some(hi)) => Some(Channel(active, Window(lo, hi), color))
        case _ => None
  }

  /**
   * Reads one entry back: its 1-based index and the channel, which is
   * inactive when the entry starts with '-'. None when the entry is not of
   * the form `[-]idx|start:end$color`.
   */
  function DecodeChannelEntry(e: string): Option<(nat, Channel)> {
    var active := !(|e| > 0 && e[0] == '-');
    var body := if active then e else e[1..];
    match SplitFirst(body, '|')
    case None => None
    case Some((index, t)) =>
      match (ParseNat(index), DecodeWindowText(t, active))
      case (Some(k), Some(c)) => Some((k, c))
      case _ => None
  }

  /** Every entry read on its own. */
  function DecodeAll(entries: seq<string>): (decoded: seq<Option<(nat, Channel)>>)
    ensures |decoded| == |entries|
  {
    seq(|entries|, j requires 0 <= j < |entries| => DecodeChannelEntry(entries[j]))
  }

  /** The channels of read entries whose indices run `offset + 1`, `offset + 2`, ...; None if one is unreadable or out of order. */
  function InOrder(decoded: seq<Option<(nat, Channel)>>, offset: nat): Option<seq<Channel>>
    decreases |decoded|
  {
    if |decoded| == 0 then Some([])
    else
      match decoded[0]
      case None => None
      case Some((k, c)) =>
        if k != offset + 1 then None
        else
          match InOrder(decoded[1..], offset + 1)
          case None => None
          case Some(rest) => Some([c] + rest)
  }

  /** Reads a channel parameter string back into channels. */
  function DecodeChannelParameters(s: string): Option<seq<Channel>> {
    if s == "" then Some([]) else InOrder(DecodeAll(Split(s, ',')), 0)
  }

  lemma NoSeparatorInNumber(x: int, sep: char)
    requires sep != '-' && !IsDigit(sep)
    ensures sep !in IntToString(x)
  {
  }

  lemma WindowTextRoundTrip(c: Channel)
    ensures DecodeWindowText(WindowText(c), c.active) == Some(c)
  {
    var lo, hi := IntToString(c.window.start), IntToString(c.window.end);
    var rest := hi + "$" + c.color;
    assert WindowText(c) == lo + [':'] + rest;
    NoSeparatorInNumber(c.window.start, ':');
    SplitFirstAt(lo, ':', rest);
    NoSeparatorInNumber(c.window.end, '$');
    SplitFirstAt(hi, '$', c.color);
    ParseIntToString(c.window.start);
    ParseIntToString(c.window.end);
  }

  lemma EntryBodySplit(k: nat, c: Channel)
    ensures SplitFirst(NatToString(k) + "|" + WindowText(c), '|') == Some((NatToString(k), WindowText(c)))
  {
    NoSeparatorInNumber(k, '|');
    SplitFirstAt(NatToString(k), '|', WindowText(c));
  }

  /** A channel entry starts with '-' exactly when the channel is inactive, and reads back as the 1-based index and the channel. */
  lemma ChannelEntryRoundTrip(i: nat, c: Channel)
    ensures var e := ChannelEntry(i, c);
      |e| > 0 && (e[0] == '-' <==> !c.active) && DecodeChannelEntry(e) == Some((i + 1, c))
  {
    var body := NatToString(i + 1) + "|" + WindowText(c);
    var e := ChannelEntry(i, c);
    assert e == ActivityMarker(c.active) + body;
    assert IsDigit(body[0]);
    if c.active {
      assert e == body;
    } else {
      assert e[1..] == body;
    }
    EntryBodySplit(i + 1, c);
    ParseNatToString(i + 1);
    WindowTextRoundTrip(c);
    DecodeEntryBody(e, body, c.active, NatToString(i + 1), WindowText(c));
  }

  /** How DecodeChannelEntry reads an entry once its marker and its split at '|' are known. */
  lemma DecodeEntryBody(e: string, body: string, active: bool, index: string, t: string)
    requires active ==> e == body
    requires !active ==> |e| > 0 && e[0] == '-' && e[1..] == body
    requires active ==> !(|e| > 0 && e[0] == '-')
    requires SplitFirst(body, '|') == Some((index, t))
    ensures DecodeChannelEntry(e)
         == match (ParseNat(index), DecodeWindowText(t, active))
            case (Some(k), Some(c)) => Some((k, c))
            case _ => None
  {
  }

  lemma {:induction false} ChannelParametersJoin(channels: seq<Channel>)
    ensures ChannelParameters(channels) == Join(ChannelEntries(channels), ',')
    decreases |channels|
  {
    if |channels| == 1 {
      assert ChannelParameters(channels) == ChannelEntry(0, channels[0]);
    } else if |channels| > 1 {
      var n := |channels| - 1;
      var front := channels[..n];
      ChannelParametersJoin(front);
      ChannelEntriesSnoc(channels);
      JoinSnoc(ChannelEntries(front), ',', ChannelEntry(n, channels[n]));
    }
  }

  lemma ChannelEntriesSnoc(channels: seq<Channel>)
    requires |channels| > 0
    ensures var n := |channels| - 1;
      ChannelEntries(channels) == ChannelEntries(channels[..n]) + [ChannelEntry(n, channels[n])]
  {
    var n := |channels| - 1;
    var front := channels[..n];
    var whole, parts := ChannelEntries(channels), ChannelEntries(front) + [ChannelEntry(n, channels[n])];
    forall k | 0 <= k < |whole|
      ensures whole[k] == parts[k]
    {
      if k < n {
        assert front[k] == channels[k];
      }
    }
  }

  /** Colours without commas keep every entry free of commas. */
  lemma EntryHasNoComma(i: nat, c: Channel)
    requires ',' !in c.color
    ensures ',' !in ChannelEntry(i, c)
  {
    NoSeparatorInNumber(i + 1, ',');
    NoSeparatorInNumber(c.window.start, ',');
    NoSeparatorInNumber(c.window.end, ',');
    assert ',' !in WindowText(c);
  }

  /**
   * One entry per channel: splitting the parameter at the commas gives, at
   * position `i`, the entry of channel `i` (so there is no leading or
   * trailing comma), provided no colour contains a comma.
   */
  lemma ChannelParametersSplit(channels: seq<Channel>)
    requires |channels| >= 1
    requires forall i :: 0 <= i < |channels| ==> ',' !in channels[i].color
    ensures Split(ChannelParameters(channels), ',') == ChannelEntries(channels)
  {
    ChannelParametersJoin(channels);
    forall i | 0 <= i < |channels|
      ensures ',' !in ChannelEntries(channels)[i]
    {
      EntryHasNoComma(i, channels[i]);
    }
    SplitJoin(ChannelEntries(channels), ',');
  }

  /** Channels numbered consecutively from `offset + 1`. */
  function Numbered(channels: seq<Channel>, offset: nat): (numbered: seq<Option<(nat, Channel)>>)
    ensures |numbered| == |channels|
  {
    seq(|channels|, j requires 0 <= j < |channels| => Some((offset + j + 1, channels[j])))
  }

  lemma {:induction false} InOrderNumbered(channels: seq<Channel>, offset: nat)
    ensures InOrder(Numbered(channels, offset), offset) == Some(channels)
    decreases |channels|
  {
    if |channels| > 0 {
      assert Numbered(channels, offset)[1..] == Numbered(channels[1..], offset + 1);
      InOrderNumbered(channels[1..], offset + 1);
      assert channels == [channels[0]] + channels[1..];
    }
  }

  lemma DecodeAllAt(channels: seq<Channel>, j: nat)
    requires j < |channels|
    ensures DecodeAll(ChannelEntries(channels))[j] == Some((j + 1, channels[j]))
  {
    ChannelEntryRoundTrip(j, channels[j]);
  }

  lemma DecodeAllEntries(channels: seq<Channel>)
    ensures DecodeAll(ChannelEntries(channels)) == Numbered(channels, 0)
  {
    forall j | 0 <= j < |channels|
      ensures DecodeAll(ChannelEntries(channels))[j] == Numbered(channels, 0)[j]
    {
      DecodeAllAt(channels, j);
    }
  }

  /** The channel parameter reads back as the channels it was built from, when no colour contains a comma. */
  lemma ChannelParametersRoundTrip(channels: seq<Channel>)
    requires forall i :: 0 <= i < |channels| ==> ',' !in channels[i].color
    ensures DecodeChannelParameters(ChannelParameters(channels)) == Some(channels)
  {
    if |channels| > 0 {
      ChannelEntryRoundTrip(0, channels[0]);
      ChannelParametersSplit(channels);
      ChannelParametersJoin(channels);
      assert ChannelParameters(channels) != "" by {
        assert Split("", ',') == [""];
        assert ChannelEntries(channels)[0] != "";
      }
      DecodeAllEntries(channels);
      InOrderNumbered(channels, 0);
    }
  }

  lemma ChannelParametersPrefix(channels: seq<Channel>, i: nat)
    requires 0 < i <= |channels|
    ensures ChannelParameters(channels[..i])
         == ChannelParameters(channels[..i - 1]) + (if i > 1 then "," else "") + ChannelEntry(i - 1, channels[i - 1])
  {
    var front := channels[..i];
    assert front[..i - 1] == channels[..i - 1] && front[i - 1] == channels[i - 1];
  }

  /** Appending the next entry to a url that holds the first `i - 1` entries gives the first `i`. */
  lemma ChannelParametersStep(url: string, channels: seq<Channel>, i: nat, separator: string, marker: string)
    requires 0 < i <= |channels|
    requires separator == (if i > 1 then "," else "") && marker == ActivityMarker(channels[i - 1].active)
    ensures url + ChannelParameters(channels[..i])
         == (url + ChannelParameters(channels[..i - 1])) + (separator + marker + NatToString(i) + "|" + WindowText(channels[i - 1]))
  {
    var c := channels[i - 1];
    ChannelParametersPrefix(channels, i);
    Regroup(url, ChannelParameters(channels[..i - 1]), separator, marker, NatToString(i), "|", WindowText(c));
  }

  /** Proof helper: regroups the url concatenation of one loop step to match `ChannelParametersPrefix`. */
  lemma Regroup(url: string, front: string, separator: string, marker: string, digits: string, bar: string, window: string)
    ensures url + (front + separator + (marker + digits + bar + window))
         == (url + front) + (separator + marker + digits + bar + window)
  {
  }

  /**
   * The loop of `saveImageSettings` and `copy`: appends each channel's entry
   * to the url, a comma before every entry but the first.
   */
  method AppendChannelParameters(url: string, channels: seq<Channel>) returns (result: string)
    ensures result == url + ChannelParameters(channels)
  {
    result := url;
    var i := 0;
    while i < |channels|
      invariant 0 <= i <= |channels|
      invariant result == url + ChannelParameters(channels[..i])
    {
      var c := channels[i];
      var separator := if i != 0 then "," else "";
      var marker := if !c.active then "-" else "";
      i := i + 1;
      ChannelParametersStep(url, channels, i, separator, marker);
      result := result + (separator + marker + NatToString(i) + "|" + WindowText(c));
    }
    assert channels[..i] == channels;
  }

  /** `image_info.model[0]`: the first letter, or "undefined" for an empty model. */
  function ModelInitial(model: string): string {
    if |model| > 0 then [model[0]] else "undefined"
  }

  // ---------------------------------------------------------------------------
  // pasting copied rendering settings
  // ---------------------------------------------------------------------------

  /** A channel as `Misc.parseChannelParameters` returns it. */
  datatype CopiedChannel = CopiedChannel(active: bool, start: int, end: int, color: string)

  /**
   * The copied rendering definition handed to the paste handler: `m` is None
   * when `rdef.m` is not a string, and `c` is None when the parsed channels
   * are missing.
   */
  datatype RenderingDef = RenderingDef(m: Option<string>, c: Option<seq<CopiedChannel>>)

  /** What a paste reads and writes of the image info. */
  datatype RenderState = RenderState(model: string, channels: seq<Channel>)

  /** The four channel properties a paste compares. */
  datatype ChannelField = Active | Start | End | Color

  const MODEL_PATH: seq<string> := ["image_info", "model"]

  /** The entry a paste puts in front of a non-empty history. */
  const INITIAL_VALUES: HistoryEntry :=
    HistoryEntry(["image_info", "initial_values"], Bool(true), Bool(true), BooleanType)

  function FieldPath(f: ChannelField): seq<string> {
    match f
    case Active => ["active"]
    case Start => ["window", "start"]
    case End => ["window", "end"]
    case Color => ["color"]
  }

  /** `['image_info', 'channels', '' + i, ...field]` */
  function ChannelPath(i: nat, f: ChannelField): seq<string> {
    ["image_info", "channels", NatToString(i)] + FieldPath(f)
  }

  function FieldType(f: ChannelField): ValueType {
    match f
    case Active => BooleanType
    case Start => NumberType
    case End => NumberType
    case Color => StringType
  }

  function FieldValue(c: Channel, f: ChannelField): Value {
    match f
    case Active => Bool(c.active)
    case Start => Num(c.window.start)
    case End => Num(c.window.end)
    case Color => Str(c.color)
  }

  function CopiedValue(c: CopiedChannel, f: ChannelField): Value {
    match f
    case Active => Bool(c.active)
    case Start => Num(c.start)
    case End => Num(c.end)
    case Color => Str(c.color)
  }

  /** `toLowerCase` of one character, for the ASCII letters. */
  function ToLower(c: char): char {
    if 'A' <= c <= 'Z' then (c as int + 32) as char else c
  }

  /** The model a pasted `rdef.m` selects: a string whose lower-cased first letter is 'g' or 'c'. */
  function RecognisedModel(m: Option<string>): Option<string> {
    if m.None? || |m.value| == 0 then None
    else
      var first := ToLower(m.value[0]);
      if first == 'g' then Some(GREYSCALE)
      else if first == 'c' then Some(COLOR)
      else None
  }

  function PastedModel(current: string, m: Option<string>): string {
    match RecognisedModel(m)
    case Some(model) => model
    case None => current
  }

  function ModelHistory(current: string, m: Option<string>): seq<HistoryEntry> {
    match RecognisedModel(m)
    case Some(model) =>
      if model != current then [HistoryEntry(MODEL_PATH, Str(current), Str(model), StringType)] else []
    case None => []
  }

  /** The entry for one property of channel `i`, if the copied value differs. */
  function FieldDiff(i: nat, a: Channel, c: CopiedChannel, f: ChannelField): seq<HistoryEntry> {
    if FieldValue(a, f) != CopiedValue(c, f) then
      [HistoryEntry(ChannelPath(i, f), FieldValue(a, f), CopiedValue(c, f), FieldType(f))]
    else []
  }

  /** The entries for channel `i`, in the order active, window start, window end, colour. */
  function ChannelDiff(i: nat, a: Channel, c: CopiedChannel): seq<HistoryEntry> {
    FieldDiff(i, a, c, Active) + FieldDiff(i, a, c, Start) + FieldDiff(i, a, c, End) + FieldDiff(i, a, c, Color)
  }

  function ApplyCopied(a: Channel, c: CopiedChannel): Channel {
    Channel(c.active, Window(c.start, c.end), c.color)
  }

  /** The channels after the first `n` copied channels were visited; indices past the current channels are skipped. */
  function PastedChannels(current: seq<Channel>, copied: seq<CopiedChannel>, n: nat): (r: seq<Channel>)
    requires n <= |copied|
    ensures |r| == |current|
  {
    seq(|current|, j requires 0 <= j < |current| =>
      if j < n then ApplyCopied(current[j], copied[j]) else current[j])
  }

  /**
   * Each current channel among the first `n` copied ones ends with the copied
   * activity, window and colour; every other channel is unchanged.
   */
  lemma PastedChannelsAt(current: seq<Channel>, copied: seq<CopiedChannel>, n: nat, j: nat)
    requires n <= |copied| && j < |current|
    ensures var r := PastedChannels(current, copied, n);
      && (j < n ==> r[j].active == copied[j].active && r[j].window == Window(copied[j].start, copied[j].end)
                    && r[j].color == copied[j].color)
      && (n <= j ==> r[j] == current[j])
  {
  }

  /** The entries the first `n` visited copied channels produce. */
  function ChannelHistory(current: seq<Channel>, copied: seq<CopiedChannel>, n: nat): seq<HistoryEntry>
    requires n <= |copied|
    decreases n
  {
    if n == 0 then []
    else
      ChannelHistory(current, copied, n - 1)
        + (if n - 1 < |current| then ChannelDiff(n - 1, current[n - 1], copied[n - 1]) else [])
  }

  function Copied(r: RenderingDef): seq<CopiedChannel> {
    if r.c.Some? then r.c.value else []
  }

  /** The image info after the paste handler ran on `r`. */
  function PasteResult(s: RenderState, r: RenderingDef): RenderState {
    var copied := Copied(r);
    RenderState(PastedModel(s.model, r.m), PastedChannels(s.channels, copied, |copied|))
  }

  /** The changes the paste handler collects, before the initial-values marker. */
  function PasteHistory(s: RenderState, r: RenderingDef): seq<HistoryEntry> {
    var copied := Copied(r);
    ModelHistory(s.model, r.m) + ChannelHistory(s.channels, copied, |copied|)
  }

  /** The list handed to `addHistory`, if it is called. */
  function RecordedEntries(s: RenderState, r: RenderingDef): seq<HistoryEntry> {
    var h := PasteHistory(s, r);
    if |h| > 0 then [INITIAL_VALUES] + h else []
  }

  // ---------------------------------------------------------------------------
  // reading a history entry back: redo applies new values, undo old ones
  // ---------------------------------------------------------------------------

  /** The channel property a path below a channel names, if any. */
  function PathField(path: seq<string>): Option<ChannelField> {
    if path == ["active"] then Some(Active)
    else if path == ["window", "start"] then Some(Start)
    else if path == ["window", "end"] then Some(End)
    else if path == ["color"] then Some(Color)
    else None
  }

  /** Sets one property of a channel; a value of the wrong type changes nothing. */
  function SetField(c: Channel, f: ChannelField, v: Value): Channel {
    match f
    case Active => if v.Bool? then c.(active := v.b) else c
    case Start => if v.Num? then c.(window := c.window.(start := v.n)) else c
    case End => if v.Num? then c.(window := c.window.(end := v.n)) else c
    case Color => if v.Str? then c.(color := v.s) else c
  }

  function WithChannel(s: RenderState, i: nat, c: Channel): RenderState
    requires i < |s.channels|
  {
    s.(channels := s.channels[i := c])
  }

  /** Sets the property a history entry names; a path that names nothing (such as the initial-values marker) changes nothing. */
  function SetProp(s: RenderState, prop: seq<string>, v: Value): RenderState {
    if prop == MODEL_PATH then
      if v.Str? then s.(model := v.s) else s
    else if |prop| >= 3 && prop[0] == "image_info" && prop[1] == "channels" then
      match (ParseNat(prop[2]), PathField(prop[3..]))
      case (Some(i), Some(f)) =>
        if i < |s.channels| then WithChannel(s, i, SetField(s.channels[i], f, v)) else s
      case _ => s
    else s
  }

  /** Applies the new values of the entries, first to last. */
  function Replay(s: RenderState, h: seq<HistoryEntry>): RenderState
    decreases |h|
  {
    if |h| == 0 then s else Replay(SetProp(s, h[0].prop, h[0].newVal), h[1..])
  }

  /** Applies the old values of the entries, last to first. */
  function Revert(s: RenderState, h: seq<HistoryEntry>): RenderState
    decreases |h|
  {
    if |h| == 0 then s else Revert(SetProp(s, h[|h| - 1].prop, h[|h| - 1].oldVal), h[..|h| - 1])
  }

  lemma {:induction false} ReplayAppend(s: RenderState, a: seq<HistoryEntry>, b: seq<HistoryEntry>)
    ensures Replay(s, a + b) == Replay(Replay(s, a), b)
    decreases |a|
  {
    if |a| == 0 {
      assert a + b == b;
    } else {
      assert (a + b)[0] == a[0] && (a + b)[1..] == a[1..] + b;
      ReplayAppend(SetProp(s, a[0].prop, a[0].newVal), a[1..], b);
    }
  }

  lemma {:induction false} RevertAppend(s: RenderState, a: seq<HistoryEntry>, b: seq<HistoryEntry>)
    ensures Revert(s, a + b) == Revert(Revert(s, b), a)
    decreases |b|
  {
    if |b| == 0 {
      assert a + b == a;
    } else {
      var ab := a + b;
      assert ab[|ab| - 1] == b[|b| - 1] && ab[..|ab| - 1] == a + b[..|b| - 1];
      RevertAppend(SetProp(s, b[|b| - 1].prop, b[|b| - 1].oldVal), a, b[..|b| - 1]);
    }
  }

  lemma SetPropChannel(s: RenderState, i: nat, f: ChannelField, v: Value)
    requires i < |s.channels|
    ensures SetProp(s, ChannelPath(i, f), v) == WithChannel(s, i, SetField(s.channels[i], f, v))
  {
    var p := ChannelPath(i, f);
    ParseNatToString(i);
    assert p[2] == NatToString(i) && p[3..] == FieldPath(f);
    assert PathField(FieldPath(f)) == Some(f);
    assert p != MODEL_PATH by { assert |p| != |MODEL_PATH|; }
  }

  /** Redoing one property's entry sets that property of channel `i` to the copied value. */
  lemma FieldDiffReplay(s: RenderState, i: nat, a: Channel, c: CopiedChannel, f: ChannelField)
    requires i < |s.channels| && FieldValue(s.channels[i], f) == FieldValue(a, f)
    ensures Replay(s, FieldDiff(i, a, c, f)) == WithChannel(s, i, SetField(s.channels[i], f, CopiedValue(c, f)))
  {
    if FieldValue(a, f) != CopiedValue(c, f) {
      SetPropChannel(s, i, f, CopiedValue(c, f));
    } else {
      assert s.channels[i := s.channels[i]] == s.channels;
    }
  }

  /** Undoing one property's entry sets that property of channel `i` back to the old value. */
  lemma FieldDiffRevert(s: RenderState, i: nat, a: Channel, c: CopiedChannel, f: ChannelField)
    requires i < |s.channels| && FieldValue(s.channels[i], f) == CopiedValue(c, f)
    ensures Revert(s, FieldDiff(i, a, c, f)) == WithChannel(s, i, SetField(s.channels[i], f, FieldValue(a, f)))
  {
    if FieldValue(a, f) != CopiedValue(c, f) {
      SetPropChannel(s, i, f, FieldValue(a, f));
    } else {
      assert s.channels[i := s.channels[i]] == s.channels;
    }
  }

  lemma WithChannelTwice(s: RenderState, i: nat, c: Channel, d: Channel)
    requires i < |s.channels|
    ensures WithChannel(WithChannel(s, i, c), i, d) == WithChannel(s, i, d)
  {
    assert s.channels[i := c][i := d] == s.channels[i := d];
  }

  /** Redoing channel `i`'s entries turns it into the copied channel. */
  lemma ChannelDiffReplay(s: RenderState, i: nat, c: CopiedChannel)
    requires i < |s.channels|
    ensures Replay(s, ChannelDiff(i, s.channels[i], c)) == WithChannel(s, i, ApplyCopied(s.channels[i], c))
  {
    var a := s.channels[i];
    var dA, dS, dE, dC := FieldDiff(i, a, c, Active), FieldDiff(i, a, c, Start), FieldDiff(i, a, c, End), FieldDiff(i, a, c, Color);
    var a1 := SetField(a, Active, CopiedValue(c, Active));
    var a2 := SetField(a1, Start, CopiedValue(c, Start));
    var a3 := SetField(a2, End, CopiedValue(c, End));
    var a4 := SetField(a3, Color, CopiedValue(c, Color));
    assert a4 == ApplyCopied(a, c);
    FieldDiffReplay(s, i, a, c, Active);
    FieldDiffReplay(WithChannel(s, i, a1), i, a, c, Start);
    WithChannelTwice(s, i, a1, a2);
    FieldDiffReplay(WithChannel(s, i, a2), i, a, c, End);
    WithChannelTwice(s, i, a2, a3);
    FieldDiffReplay(WithChannel(s, i, a3), i, a, c, Color);
    WithChannelTwice(s, i, a3, a4);
    ReplayAppend(s, dA + dS + dE, dC);
    ReplayAppend(s, dA + dS, dE);
    ReplayAppend(s, dA, dS);
  }

  /** Undoing channel `i`'s entries turns the copied channel back into the old one. */
  lemma ChannelDiffRevert(s: RenderState, i: nat, a: Channel, c: CopiedChannel)
    requires i < |s.channels| && s.channels[i] == ApplyCopied(a, c)
    ensures Revert(s, ChannelDiff(i, a, c)) == WithChannel(s, i, a)
  {
    var dA, dS, dE, dC := FieldDiff(i, a, c, Active), FieldDiff(i, a, c, Start), FieldDiff(i, a, c, End), FieldDiff(i, a, c, Color);
    var b4 := s.channels[i];
    var b3 := SetField(b4, Color, FieldValue(a, Color));
    var b2 := SetField(b3, End, FieldValue(a, End));
    var b1 := SetField(b2, Start, FieldValue(a, Start));
    var b0 := SetField(b1, Active, FieldValue(a, Active));
    assert b0 == a;
    FieldDiffRevert(s, i, a, c, Color);
    FieldDiffRevert(WithChannel(s, i, b3), i, a, c, End);
    WithChannelTwice(s, i, b3, b2);
    FieldDiffRevert(WithChannel(s, i, b2), i, a, c, Start);
    WithChannelTwice(s, i, b2, b1);
    FieldDiffRevert(WithChannel(s, i, b1), i, a, c, Active);
    WithChannelTwice(s, i, b1, b0);
    RevertAppend(s, dA + dS + dE, dC);
    RevertAppend(WithChannel(s, i, b3), dA + dS, dE);
    RevertAppend(WithChannel(s, i, b2), dA, dS);
  }

  lemma PastedChannelsNone(current: seq<Channel>, copied: seq<CopiedChannel>)
    ensures PastedChannels(current, copied, 0) == current
  {
  }

  lemma PastedChannelsStep(current: seq<Channel>, copied: seq<CopiedChannel>, k: nat)
    requires k < |copied|
    ensures PastedChannels(current, copied, k + 1)
         == if k < |current| then PastedChannels(current, copied, k)[k := ApplyCopied(current[k], copied[k])]
            else PastedChannels(current, copied, k)
  {
  }

  /** Undoing the entries of a channel that was pasted over restores the state before the paste. */
  lemma ChannelDiffRevertAt(before: RenderState, k: nat, a: Channel, c: CopiedChannel)
    requires k < |before.channels| && before.channels[k] == a
    ensures Revert(WithChannel(before, k, ApplyCopied(a, c)), ChannelDiff(k, a, c)) == before
  {
    ChannelDiffRevert(WithChannel(before, k, ApplyCopied(a, c)), k, a, c);
    WithChannelTwice(before, k, ApplyCopied(a, c), a);
    assert before.channels[k := a] == before.channels;
  }

  lemma ChannelHistoryStep(current: seq<Channel>, copied: seq<CopiedChannel>, k: nat)
    requires k < |copied|
    ensures ChannelHistory(current, copied, k + 1)
         == ChannelHistory(current, copied, k) + (if k < |current| then ChannelDiff(k, current[k], copied[k]) else [])
  {
  }

  /** Redoing the channel entries gives the pasted channels. */
  lemma {:induction false} ChannelHistoryReplay(s: RenderState, copied: seq<CopiedChannel>, n: nat)
    requires n <= |copied|
    ensures Replay(s, ChannelHistory(s.channels, copied, n)) == s.(channels := PastedChannels(s.channels, copied, n))
    decreases n
  {
    var cur := s.channels;
    if n == 0 {
      PastedChannelsNone(cur, copied);
    } else {
      var k := n - 1;
      ChannelHistoryReplay(s, copied, k);
      ChannelHistoryStep(cur, copied, k);
      PastedChannelsStep(cur, copied, k);
      var before := s.(channels := PastedChannels(cur, copied, k));
      var d := if k < |cur| then ChannelDiff(k, cur[k], copied[k]) else [];
      ReplayAppend(s, ChannelHistory(cur, copied, k), d);
      if k < |cur| {
        PastedChannelsAt(cur, copied, k, k);
        ChannelDiffReplay(before, k, copied[k]);
      }
    }
  }

  /** Undoing the channel entries, last first, gives the old channels back. */
  lemma {:induction false} ChannelHistoryRevert(s: RenderState, copied: seq<CopiedChannel>, n: nat)
    requires n <= |copied|
    ensures Revert(s.(channels := PastedChannels(s.channels, copied, n)), ChannelHistory(s.channels, copied, n)) == s
    decreases n
  {
    var cur := s.channels;
    if n == 0 {
      PastedChannelsNone(cur, copied);
    } else {
      var k := n - 1;
      ChannelHistoryRevert(s, copied, k);
      ChannelHistoryStep(cur, copied, k);
      PastedChannelsStep(cur, copied, k);
      var before := s.(channels := PastedChannels(cur, copied, k));
      var after := s.(channels := PastedChannels(cur, copied, n));
      var d := if k < |cur| then ChannelDiff(k, cur[k], copied[k]) else [];
      RevertAppend(after, ChannelHistory(cur, copied, k), d);
      if k < |cur| {
        PastedChannelsAt(cur, copied, k, k);
        ChannelDiffRevertAt(before, k, cur[k], copied[k]);
        assert after == WithChannel(before, k, ApplyCopied(cur[k], copied[k]));
      }
    }
  }

  /**
   * The recorded history is exactly what undo and redo need: redoing its new
   * values turns the old image info into the pasted one, and undoing its old
   * values, last first, restores the old image info.
   */
  lemma PasteHistoryRedoUndo(s: RenderState, r: RenderingDef)
    ensures Replay(s, RecordedEntries(s, r)) == PasteResult(s, r)
    ensures Revert(PasteResult(s, r), RecordedEntries(s, r)) == s
  {
    var copied := Copied(r);
    var mh := ModelHistory(s.model, r.m);
    var ch := ChannelHistory(s.channels, copied, |copied|);
    var s1 := s.(model := PastedModel(s.model, r.m));
    var result := PasteResult(s, r);
    assert Replay(s, mh) == s1;
    ChannelHistoryReplay(s1, copied, |copied|);
    ChannelHistoryRevert(s1, copied, |copied|);
    ReplayAppend(s, mh, ch);
    RevertAppend(result, mh, ch);
    assert Revert(s1, mh) == s;
    var h := mh + ch;
    if |h| > 0 {
      assert SetProp(s, INITIAL_VALUES.prop, INITIAL_VALUES.newVal) == s;
      assert ([INITIAL_VALUES] + h)[1..] == h;
      RevertAppend(result, [INITIAL_VALUES], h);
      assert SetProp(s, INITIAL_VALUES.prop, INITIAL_VALUES.oldVal) == s;
    }
  }

  /** Any entry of channel `k` means channel `k` changed. */
  lemma {:induction false} ChannelHistoryChanges(current: seq<Channel>, copied: seq<CopiedChannel>, n: nat)
    requires n <= |copied|
    requires |ChannelHistory(current, copied, n)| > 0
    ensures PastedChannels(current, copied, n) != current
    decreases n
  {
    var k := n - 1;
    var pasted := PastedChannels(current, copied, n);
    if |ChannelHistory(current, copied, k)| > 0 {
      ChannelHistoryChanges(current, copied, k);
      var before := PastedChannels(current, copied, k);
      var j :| 0 <= j < |current| && before[j] != current[j];
      assert pasted[j] == before[j];
    } else {
      assert k < |current| && |ChannelDiff(k, current[k], copied[k])| > 0;
      assert pasted[k] != current[k];
    }
  }

  /** `addHistory` is called exactly when the paste changed the image info. */
  lemma PasteRecordsIffChanged(s: RenderState, r: RenderingDef)
    ensures |RecordedEntries(s, r)| > 0 <==> PasteResult(s, r) != s
  {
    var copied := Copied(r);
    PasteHistoryRedoUndo(s, r);
    if |ChannelHistory(s.channels, copied, |copied|)| > 0 {
      ChannelHistoryChanges(s.channels, copied, |copied|);
    }
  }

  /** The entries of a history that record the property at `path`, in order. */
  function EntriesAt(h: seq<HistoryEntry>, path: seq<string>): seq<HistoryEntry>
    decreases |h|
  {
    if |h| == 0 then []
    else EntriesAt(h[..|h| - 1], path) + (if h[|h| - 1].prop == path then [h[|h| - 1]] else [])
  }

  lemma {:induction false} EntriesAtAppend(a: seq<HistoryEntry>, b: seq<HistoryEntry>, path: seq<string>)
    ensures EntriesAt(a + b, path) == EntriesAt(a, path) + EntriesAt(b, path)
    decreases |b|
  {
    if |b| == 0 {
      assert a + b == a;
    } else {
      var ab := a + b;
      assert ab[..|ab| - 1] == a + b[..|b| - 1] && ab[|ab| - 1] == b[|b| - 1];
      EntriesAtAppend(a, b[..|b| - 1], path);
    }
  }

  /** Different channels or different properties have different paths. */
  lemma ChannelPathInjective(i: nat, f: ChannelField, j: nat, g: ChannelField)
    requires ChannelPath(i, f) == ChannelPath(j, g)
    ensures i == j && f == g
  {
    assert ChannelPath(i, f)[2] == NatToString(i) && ChannelPath(j, g)[2] == NatToString(j);
    NatToStringInjective(i, j);
    assert ChannelPath(i, f)[3..] == FieldPath(f) && ChannelPath(j, g)[3..] == FieldPath(g);
    assert PathField(FieldPath(f)) == Some(f) && PathField(FieldPath(g)) == Some(g);
  }

  lemma FieldDiffAt(i: nat, a: Channel, c: CopiedChannel, f: ChannelField, j: nat, g: ChannelField)
    ensures EntriesAt(FieldDiff(i, a, c, f), ChannelPath(j, g)) == if i == j && f == g then FieldDiff(i, a, c, f) else []
  {
    var d := FieldDiff(i, a, c, f);
    if |d| > 0 {
      assert d[..0] == [];
      if ChannelPath(i, f) == ChannelPath(j, g) {
        ChannelPathInjective(i, f, j, g);
      }
    }
  }

  lemma EntriesAtFour(a: seq<HistoryEntry>, b: seq<HistoryEntry>, c: seq<HistoryEntry>, d: seq<HistoryEntry>,
                      path: seq<string>)
    ensures EntriesAt(a + b + c + d, path) == EntriesAt(a, path) + EntriesAt(b, path) + EntriesAt(c, path) + EntriesAt(d, path)
  {
    EntriesAtAppend(a + b + c, d, path);
    EntriesAtAppend(a + b, c, path);
    EntriesAtAppend(a, b, path);
  }

  /** Proof helper: the one of four entry lists that belongs to property `g`. */
  function Select(g: ChannelField, dA: seq<HistoryEntry>, dS: seq<HistoryEntry>, dE: seq<HistoryEntry>,
                  dC: seq<HistoryEntry>): seq<HistoryEntry>
  {
    match g
    case Active => dA
    case Start => dS
    case End => dE
    case Color => dC
  }

  /** Proof helper: when at most one of four lists is non-empty, their concatenation is that list. */
  lemma ConcatSelect(g: ChannelField, same: bool, eA: seq<HistoryEntry>, eS: seq<HistoryEntry>, eE: seq<HistoryEntry>,
                     eC: seq<HistoryEntry>, dA: seq<HistoryEntry>, dS: seq<HistoryEntry>, dE: seq<HistoryEntry>,
                     dC: seq<HistoryEntry>)
    requires eA == (if same && g == Active then dA else [])
    requires eS == (if same && g == Start then dS else [])
    requires eE == (if same && g == End then dE else [])
    requires eC == (if same && g == Color then dC else [])
    ensures eA + eS + eE + eC == if same then Select(g, dA, dS, dE, dC) else []
  {
    if same {
      match g
      case Active => assert eA + eS + eE + eC == eA;
      case Start => assert eA + eS + eE + eC == eS;
      case End => assert eA + eS + eE + eC == eE;
      case Color => assert eA + eS + eE + eC == eC;
    }
  }

  lemma ChannelDiffAt(i: nat, a: Channel, c: CopiedChannel, j: nat, g: ChannelField)
    ensures EntriesAt(ChannelDiff(i, a, c), ChannelPath(j, g)) == if i == j then FieldDiff(i, a, c, g) else []
  {
    var p := ChannelPath(j, g);
    var dA, dS, dE, dC := FieldDiff(i, a, c, Active), FieldDiff(i, a, c, Start), FieldDiff(i, a, c, End), FieldDiff(i, a, c, Color);
    EntriesAtFour(dA, dS, dE, dC, p);
    FieldDiffAt(i, a, c, Active, j, g);
    FieldDiffAt(i, a, c, Start, j, g);
    FieldDiffAt(i, a, c, End, j, g);
    FieldDiffAt(i, a, c, Color, j, g);
    ConcatSelect(g, i == j, EntriesAt(dA, p), EntriesAt(dS, p), EntriesAt(dE, p), EntriesAt(dC, p), dA, dS, dE, dC);
    assert Select(g, dA, dS, dE, dC) == FieldDiff(i, a, c, g);
  }

  lemma {:induction false} ChannelHistoryAt(current: seq<Channel>, copied: seq<CopiedChannel>, n: nat, j: nat, g: ChannelField)
    requires n <= |copied|
    ensures EntriesAt(ChannelHistory(current, copied, n), ChannelPath(j, g))
         == if j < n && j < |current| then FieldDiff(j, current[j], copied[j], g) else []
    decreases n
  {
    if n > 0 {
      var k := n - 1;
      var d := if k < |current| then ChannelDiff(k, current[k], copied[k]) else [];
      ChannelHistoryStep(current, copied, k);
      ChannelHistoryAt(current, copied, k, j, g);
      EntriesAtAppend(ChannelHistory(current, copied, k), d, ChannelPath(j, g));
      if k < |current| {
        ChannelDiffAt(k, current[k], copied[k], j, g);
      }
    }
  }

  lemma PasteHistoryAt(s: RenderState, r: RenderingDef, j: nat, g: ChannelField)
    ensures var copied := Copied(r);
      EntriesAt(PasteHistory(s, r), ChannelPath(j, g))
      == if j < |s.channels| && j < |copied| then FieldDiff(j, s.channels[j], copied[j], g) else []
  {
    var copied := Copied(r);
    var p := ChannelPath(j, g);
    var mh := ModelHistory(s.model, r.m);
    assert EntriesAt(mh, p) == [] by {
      if |mh| > 0 {
        assert mh[..0] == [] && |p| > 3;
      }
    }
    EntriesAtAppend(mh, ChannelHistory(s.channels, copied, |copied|), p);
    ChannelHistoryAt(s.channels, copied, |copied|, j, g);
  }

  /**
   * A paste records each property of each channel at most once: exactly one
   * entry, holding the old and the copied value, when the channel exists, was
   * copied and the values differ, and none otherwise.
   */
  lemma PasteEntriesAt(s: RenderState, r: RenderingDef, j: nat, g: ChannelField)
    ensures var copied := Copied(r);
      EntriesAt(RecordedEntries(s, r), ChannelPath(j, g))
      == if j < |s.channels| && j < |copied| && FieldValue(s.channels[j], g) != CopiedValue(copied[j], g)
         then [HistoryEntry(ChannelPath(j, g), FieldValue(s.channels[j], g), CopiedValue(copied[j], g), FieldType(g))]
         else []
  {
    var h := PasteHistory(s, r);
    var p := ChannelPath(j, g);
    PasteHistoryAt(s, r, j, g);
    if |h| > 0 {
      EntriesAtAppend([INITIAL_VALUES], h, p);
      assert [INITIAL_VALUES][..0] == [] && |p| > 3;
    }
  }

  /** The record of a model switch: the new model is greyscale exactly when `flag` is set, and the old one is the other model. */
  function ModelChangeRecord(flag: bool): (e: HistoryEntry)
    ensures e.prop == MODEL_PATH && e.valueType == StringType
    ensures e.newVal == Str(if flag then GREYSCALE else COLOR)
    ensures e.oldVal != e.newVal && e.oldVal in {Str(GREYSCALE), Str(COLOR)}
  {
    HistoryEntry(MODEL_PATH, Str(if !flag then GREYSCALE else COLOR), Str(if flag then GREYSCALE else COLOR), StringType)
  }

  /** Redoing a model-switch record sets the new model; undoing it afterwards restores the old one. */
  lemma ModelChangeRedoUndo(s: RenderState, flag: bool)
    requires s.model == (if flag then COLOR else GREYSCALE)
    ensures Replay(s, [ModelChangeRecord(flag)]).model == (if flag then GREYSCALE else COLOR)
    ensures Revert(Replay(s, [ModelChangeRecord(flag)]), [ModelChangeRecord(flag)]) == s
  {
  }

  // ---------------------------------------------------------------------------
  // the panel
  // ---------------------------------------------------------------------------

  /** The `config_id` of an event: undefined when the event has none, otherwise null (None) or a number. */
  datatype EventConfigId = Undefined | Defined(id: Option<int>)

  class Settings {
    /** the bound `config_id`; None while it is null */
    var configId: Option<int>
    var imageConfig: ImageConfig?

    constructor (configId: Option<int>)
      ensures this.configId == configId && imageConfig == null
    {
      this.configId := configId;
      imageConfig := null;
    }

    /**
     * Handles an image-config event whose `config_id` is `eventConfigId`;
     * `lookup` is what the context returns for that id. The event is ignored
     * unless its id is strictly equal to the bound one (null matches null, an
     * absent id matches nothing); a null lookup leaves the config as it was.
     */
    method OnImageConfigChange(eventConfigId: EventConfigId, lookup: ImageConfig?)
      modifies this
      ensures configId == old(configId)
      ensures eventConfigId != Defined(old(configId)) ==> imageConfig == old(imageConfig)
      ensures eventConfigId == Defined(old(configId)) ==>
        imageConfig == (if lookup == null then old(imageConfig) else lookup)
    {
      if eventConfigId != Defined(configId) {
        return;
      }
      configId := eventConfigId.id;
      if lookup == null {
        return;
      }
      imageConfig := lookup;
    }

    /** Records a switch of the colour model. */
    method OnModelChange(flag: bool)
      requires imageConfig != null
      modifies imageConfig
      ensures imageConfig.history == old(imageConfig.history) + [[ModelChangeRecord(flag)]]
      ensures imageConfig.revision == old(imageConfig.revision)
      ensures imageConfig.undoCalls == old(imageConfig.undoCalls) && imageConfig.redoCalls == old(imageConfig.redoCalls)
    {
      imageConfig.AddHistory([ModelChangeRecord(flag)]);
    }

    /** Undoes the last change, if there is an image config. */
    method Undo()
      modifies imageConfig
      ensures imageConfig == old(imageConfig)
      ensures imageConfig != null ==>
        imageConfig.undoCalls == old(imageConfig.undoCalls) + 1 && imageConfig.revision == old(imageConfig.revision) + 1
        && imageConfig.redoCalls == old(imageConfig.redoCalls) && imageConfig.history == old(imageConfig.history)
    {
      if imageConfig != null {
        imageConfig.UndoHistory();
        imageConfig.Changed();
      }
    }

    /** Redoes the last undone change, if there is an image config. */
    method Redo()
      modifies imageConfig
      ensures imageConfig == old(imageConfig)
      ensures imageConfig != null ==>
        imageConfig.redoCalls == old(imageConfig.redoCalls) + 1 && imageConfig.revision == old(imageConfig.revision) + 1
        && imageConfig.undoCalls == old(imageConfig.undoCalls) && imageConfig.history == old(imageConfig.history)
    {
      if imageConfig != null {
        imageConfig.RedoHistory();
        imageConfig.Changed();
      }
    }

    /**
     * The url `saveImageSettings` posts: None when the server is cross-domain
     * (nothing is sent). Time point and z-section are sent 1-based.
     */
    method SaveImageSettings(server: string, crossDomain: bool) returns (url: Option<string>)
      requires !crossDomain ==> imageConfig != null
      ensures crossDomain ==> url == None
      ensures !crossDomain ==>
        var info := imageConfig.imageInfo;
        url == Some(server + "/webgateway/saveImgRDef/" + NatToString(info.imageId) + "/?m=" + ModelInitial(info.model)
          + "&p=" + info.projection + "&t=" + IntToString(info.t + 1) + "&z=" + IntToString(info.z + 1)
          + "&q=0.9&ia=0&c=" + ChannelParameters(info.channels))
    {
      if crossDomain {
        return None;
      }
      var info := imageConfig.imageInfo;
      var prefix := server + "/webgateway/saveImgRDef/" + NatToString(info.imageId) + "/?m=" + ModelInitial(info.model)
        + "&p=" + info.projection + "&t=" + IntToString(info.t + 1) + "&z=" + IntToString(info.z + 1)
        + "&q=0.9&ia=0&c=";
      var full := AppendChannelParameters(prefix, info.channels);
      url := Some(full);
    }

    /** The url `copy` requests: the same channel parameter as a save. */
    method Copy(server: string) returns (url: string)
      requires imageConfig != null
      ensures var info := imageConfig.imageInfo;
        url == server + "/webgateway/copyImgRDef/?imageId=" + NatToString(info.imageId) + "&pixel_range="
          + IntToString(info.rangeStart) + ":" + IntToString(info.rangeEnd) + "&m=" + ModelInitial(info.model)
          + "&p=" + info.projection + "&q=0.9&ia=0&c=" + ChannelParameters(info.channels)
    {
      var info := imageConfig.imageInfo;
      var prefix := server + "/webgateway/copyImgRDef/?imageId=" + NatToString(info.imageId) + "&pixel_range="
        + IntToString(info.rangeStart) + ":" + IntToString(info.rangeEnd) + "&m=" + ModelInitial(info.model)
        + "&p=" + info.projection + "&q=0.9&ia=0&c=";
      url := AppendChannelParameters(prefix, info.channels);
    }

    /**
     * The paste handler, called with the copied rendering definition (None
     * for a null one, which changes nothing). It writes the recognised model
     * and every copied channel property into the image info, records each
     * change, hands the records to `addHistory` behind the initial-values
     * marker when there are any, and always reports a change.
     */
    method Paste(rdef: Option<RenderingDef>)
      requires imageConfig != null
      modifies imageConfig, imageConfig.imageInfo`model, imageConfig.imageInfo`channels
      ensures imageConfig == old(imageConfig)
      ensures rdef.None? ==> unchanged(imageConfig, imageConfig.imageInfo)
      ensures imageConfig.undoCalls == old(imageConfig.undoCalls) && imageConfig.redoCalls == old(imageConfig.redoCalls)
      ensures rdef.Some? ==>
        var before := RenderState(old(imageConfig.imageInfo.model), old(imageConfig.imageInfo.channels));
        var entries := RecordedEntries(before, rdef.value);
        && RenderState(imageConfig.imageInfo.model, imageConfig.imageInfo.channels) == PasteResult(before, rdef.value)
        && imageConfig.history == old(imageConfig.history) + (if |entries| > 0 then [entries] else [])
        && imageConfig.revision == old(imageConfig.revision) + 1
    {
      if rdef.None? {
        return;
      }
      var config := imageConfig;
      var info := config.imageInfo;
      var def := rdef.value;
      var modelEntries := PasteModel(info, def.m);
      var channelEntries := PasteChannels(info, Copied(def));
      var history := modelEntries + channelEntries;
      if |history| > 0 {
        history := [INITIAL_VALUES] + history;
        config.AddHistory(history);
      }
      config.Changed();
    }
  }

  /**
   * The model part of the paste handler: a copied model whose lower-cased
   * first letter is 'g' or 'c' selects greyscale or colour, and a change is
   * recorded with the old and new model.
   */
  method PasteModel(info: ImageInfo, m: Option<string>) returns (entries: seq<HistoryEntry>)
    modifies info`model
    ensures info.model == PastedModel(old(info.model), m)
    ensures entries == ModelHistory(old(info.model), m)
  {
    entries := [];
    if m.Some? && |m.value| > 0 {
      var first := ToLower(m.value[0]);
      if first == 'g' || first == 'c' {
        var oldValue := info.model;
        info.model := if first == 'g' then GREYSCALE else COLOR;
        if oldValue != info.model {
          entries := entries + [HistoryEntry(MODEL_PATH, Str(oldValue), Str(info.model), StringType)];
        }
      }
    }
  }

  /**
   * The channel loop of the paste handler: every copied channel whose index
   * names an existing channel is pasted over it; the others are skipped.
   */
  method PasteChannels(info: ImageInfo, copied: seq<CopiedChannel>) returns (entries: seq<HistoryEntry>)
    modifies info`channels
    ensures info.channels == PastedChannels(old(info.channels), copied, |copied|)
    ensures entries == ChannelHistory(old(info.channels), copied, |copied|)
  {
    ghost var channels0 := info.channels;
    entries := [];
    var i := 0;
    PastedChannelsNone(channels0, copied);
    while i < |copied|
      invariant 0 <= i <= |copied|
      invariant info.channels == PastedChannels(channels0, copied, i)
      invariant entries == ChannelHistory(channels0, copied, i)
    {
      PasteChannelsStep(channels0, copied, i, info.channels, entries);
      if i < |info.channels| {
        var channelEntries := PasteChannel(info, i, copied[i]);
        entries := entries + channelEntries;
      }
      assert info.channels == PastedChannels(channels0, copied, i + 1);
      i := i + 1;
    }
  }

  /** What one pass of the paste handler's channel loop adds to the channels and the entries. */
  lemma PasteChannelsStep(current: seq<Channel>, copied: seq<CopiedChannel>, k: nat,
                          channels: seq<Channel>, entries: seq<HistoryEntry>)
    requires k < |copied|
    requires channels == PastedChannels(current, copied, k) && entries == ChannelHistory(current, copied, k)
    ensures |channels| == |current|
    ensures k < |channels| ==>
      && channels[k] == current[k]
      && PastedChannels(current, copied, k + 1) == channels[k := ApplyCopied(channels[k], copied[k])]
      && ChannelHistory(current, copied, k + 1) == entries + ChannelDiff(k, channels[k], copied[k])
    ensures k >= |channels| ==>
      PastedChannels(current, copied, k + 1) == channels && ChannelHistory(current, copied, k + 1) == entries
  {
    PastedChannelsStep(current, copied, k);
  }

  /**
   * One pass of the paste handler's channel loop over an existing channel:
   * each of active, window start, window end and colour that differs from the
   * copied channel is recorded (old and new value) and overwritten.
   */
  method PasteChannel(info: ImageInfo, i: nat, copied: CopiedChannel)
      returns (entries: seq<HistoryEntry>)
    requires i < |info.channels|
    modifies info`channels
    ensures entries == ChannelDiff(i, old(info.channels[i]), copied)
    ensures info.channels == old(info.channels)[i := ApplyCopied(old(info.channels[i]), copied)]
  {
    var act := info.channels[i];
    ghost var a := act;
    entries := [];
    if act.active != copied.active {
      entries := entries + [HistoryEntry(ChannelPath(i, Active), Bool(act.active), Bool(copied.active), BooleanType)];
      act := act.(active := copied.active);
    }
    assert entries == FieldDiff(i, a, copied, Active) && act == SetField(a, Active, CopiedValue(copied, Active));
    if act.window.start != copied.start {
      entries := entries + [HistoryEntry(ChannelPath(i, Start), Num(act.window.start), Num(copied.start), NumberType)];
      act := act.(window := act.window.(start := copied.start));
    }
    assert entries == FieldDiff(i, a, copied, Active) + FieldDiff(i, a, copied, Start);
    if act.window.end != copied.end {
      entries := entries + [HistoryEntry(ChannelPath(i, End), Num(act.window.end), Num(copied.end), NumberType)];
      act := act.(window := act.window.(end := copied.end));
    }
    assert entries == FieldDiff(i, a, copied, Active) + FieldDiff(i, a, copied, Start) + FieldDiff(i, a, copied, End);
    if act.color != copied.color {
      entries := entries + [HistoryEntry(ChannelPath(i, Color), Str(act.color), Str(copied.color), StringType)];
      act := act.(color := copied.color);
    }
    info.channels := info.channels[i := act];
  }
}
