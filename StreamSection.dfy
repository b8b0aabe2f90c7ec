/** client/src/components/StreamSection.tsx: which channel the player shows,
    whether the page calls it live, the stream switch dialog, and the title
    line. The Twitch probe is an oracle from channel name to "is live", and
    the list of channels probed is returned so that its order can be stated. */
module StreamSection {
  import opened Js
  import opened ClientTypes
  import opened Browser
  import ClientStorage

  /** The component's props, with their defaults already applied. */
  datatype StreamProps = StreamProps(currentStream: string, isAdmin: bool, autoDetectStream: bool, offlineBehavior: string)

  /** The component's state. */
  class StreamView {
    var isDialogOpen: bool
    var isLive: bool
    var selectedChannel: string
    var streamToDisplay: string

    /** The initial state: closed dialog, taken to be live, both channels the current stream. */
    constructor (props: StreamProps)
      ensures !isDialogOpen && isLive
      ensures selectedChannel == props.currentStream && streamToDisplay == props.currentStream
    {
      isDialogOpen := false;
      isLive := true;
      selectedChannel := props.currentStream;
      streamToDisplay := props.currentStream;
    }

    /** `checkChannelStatus()`. An admin with auto-detect off keeps the
        forced channel and is shown live without probing. Otherwise rennsz
        is probed first and shown if live, then rennszino; when neither is
        live the page is offline and shows the current stream. */
    method CheckChannelStatus(props: StreamProps, live: string -> bool) returns (probed: seq<string>)
      modifies this`isLive, this`streamToDisplay
      ensures !props.autoDetectStream && props.isAdmin ==>
        isLive && streamToDisplay == old(streamToDisplay) && probed == []
      ensures props.autoDetectStream || !props.isAdmin ==>
        && probed == (if live("rennsz") then ["rennsz"] else ["rennsz", "rennszino"])
        && (isLive <==> live("rennsz") || live("rennszino"))
        && (live("rennsz") ==> streamToDisplay == "rennsz")
        && (!live("rennsz") && live("rennszino") ==> streamToDisplay == "rennszino")
        && (!isLive ==> streamToDisplay == props.currentStream)
      ensures isLive && probed != [] ==> FindChannel(StreamChannels, streamToDisplay).Some?
    {
      if !props.autoDetectStream && props.isAdmin {
        isLive := true;
        return [];
      }
      StreamChannelsShape();
      probed := ["rennsz"];
      if live("rennsz") {
        isLive := true;
        streamToDisplay := "rennsz";
        return;
      }
      probed := probed + ["rennszino"];
      if live("rennszino") {
        isLive := true;
        streamToDisplay := "rennszino";
        return;
      }
      isLive := false;
      streamToDisplay := props.currentStream;
    }

    /** The effect on a change of `currentStream` or `autoDetectStream`:
        the selection follows the current stream, and so does the player
        when auto-detect is off. */
    method SyncCurrentStream(props: StreamProps)
      modifies this`selectedChannel, this`streamToDisplay
      ensures selectedChannel == props.currentStream
      ensures !props.autoDetectStream ==> streamToDisplay == props.currentStream
      ensures props.autoDetectStream ==> streamToDisplay == old(streamToDisplay)
    {
      selectedChannel := props.currentStream;
      if !props.autoDetectStream {
        streamToDisplay := props.currentStream;
      }
    }

    /** `handleSwitchStream`: the dialog opens. */
    method OpenDialog()
      modifies this`isDialogOpen
      ensures isDialogOpen
    {
      isDialogOpen := true;
    }

    /** The dialog's `onSelectChannel`: only the selection changes. */
    method SelectChannel(channel: string)
      modifies this`selectedChannel
      ensures selectedChannel == channel
    {
      selectedChannel := channel;
    }

    /** `handleConfirmSwitch()`: the player shows the selected channel; an
        admin also saves it as the current stream through the settings
        API; then the dialog closes. A visitor's page is not touched. */
    method ConfirmSwitch(props: StreamProps, page: Page, response: Outcome<()>)
      modifies this`streamToDisplay, this`isDialogOpen, page`localStorage, page`sent, page`bodyClasses
      ensures streamToDisplay == selectedChannel && !isDialogOpen
      ensures !props.isAdmin ==>
        page.localStorage == old(page.localStorage) && page.sent == old(page.sent) && page.bodyClasses == old(page.bodyClasses)
      ensures props.isAdmin && !TruthyText(ClientStorage.AuthToken(old(page.localStorage))) ==>
        page.localStorage == old(page.localStorage) && page.sent == old(page.sent)
      ensures props.isAdmin && TruthyText(ClientStorage.AuthToken(old(page.localStorage))) ==>
        && page.localStorage == ClientStorage.SavedStorage(old(page.localStorage), NoChange.(currentStream := Some(selectedChannel)))
        && page.sent == old(page.sent) + [SettingsPost(ClientStorage.AuthToken(old(page.localStorage)).value,
                                                       ClientStorage.EncodePatch(NoChange.(currentStream := Some(selectedChannel))))]
        && ClientStorage.CachedSettings(page.localStorage)
           == Apply(ClientStorage.CachedSettings(old(page.localStorage)), NoChange.(currentStream := Some(selectedChannel)))
      ensures props.isAdmin ==> page.bodyClasses == old(page.bodyClasses)
    {
      streamToDisplay := selectedChannel;
      if props.isAdmin {
        var patch := NoChange.(currentStream := Some(selectedChannel));
        var _ := ClientStorage.SaveSettingsToApi(page, patch, response);
      }
      isDialogOpen := false;
    }
  }

  /** The player condition: the iframe shows unless the page is offline
      and the offline behaviour is "message". */
  function ShowPlayer(isLive: bool, offlineBehavior: string): (r: bool)
    ensures !r <==> !isLive && offlineBehavior == "message"
  {
    isLive || (offlineBehavior != "message" && !isLive)
  }

  /** `streamTitle`: by the type of the channel whose id is the displayed stream. */
  function StreamTitle(streamToDisplay: string): string {
    var info := FindChannel(StreamChannels, streamToDisplay);
    if info.None? then "Stream" else if info.value.kind == IRL then "IRL Stream" else "Gaming Stream"
  }

  /** The IRL channel is titled "IRL Stream", the gaming channel "Gaming
      Stream", and any other id "Stream". */
  lemma StreamTitles(id: string)
    ensures StreamTitle("rennsz") == "IRL Stream"
    ensures StreamTitle("rennszino") == "Gaming Stream"
    ensures id != "rennsz" && id != "rennszino" ==> StreamTitle(id) == "Stream"
  {
    StreamChannelsShape();
  }
}
