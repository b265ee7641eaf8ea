/** The media objects of embypy/objects/misc.py: Audio and Person. Each is a
    view over the item's `object_dict` (a decoded JSON object): the properties
    read it with defaults, list comprehensions and `split`, and the setters
    assign one key of it in place. */
module MediaObjects {
  import opened PyValues
  import opened Strings
  import opened QueryString
  import opened Connection

  /** What `a['Id']` raises for one entry of an artist list, if anything:
      KeyError for a dict without an Id, TypeError for anything that is not
      a dict (strings and lists take integer indices, None and numbers none). */
  function IdFailure(a: Value): (r: Option<Error>)
    ensures r.None? <==> a.VDict? && "Id" in a.entries
  {
    match a
    case VDict(entries) => if "Id" in entries then None else Some(KeyError("Id"))
    case _ => Some(TypeError)
  }

  /** `[a['Id'] for a in items]`, evaluated left to right: the Ids in order,
      or the error of the first entry that has none. */
  function IdsOfItems(items: seq<Value>): (r: Result<seq<Value>>)
    ensures r.Ok? <==> forall i :: 0 <= i < |items| ==> IdFailure(items[i]).None?
    ensures r.Ok? ==> |r.value| == |items|
    ensures r.Ok? ==> forall i :: 0 <= i < |items| ==> r.value[i] == items[i].entries["Id"]
    ensures r.Err? ==> exists i :: 0 <= i < |items| && IdFailure(items[i]) == Some(r.error)
                                   && forall j :: 0 <= j < i ==> IdFailure(items[j]).None?
  {
    if items == [] then Ok([])
    else match IdFailure(items[0])
      case Some(e) => Err(e)
      case None =>
        match IdsOfItems(items[1..])
        case Err(e) =>
          assert exists i :: 1 <= i < |items| && IdFailure(items[i]) == Some(e)
                             && forall j :: 0 <= j < i ==> IdFailure(items[j]).None? by {
            var i :| 0 <= i < |items| - 1 && IdFailure(items[1..][i]) == Some(e)
                     && forall j :: 0 <= j < i ==> IdFailure(items[1..][j]).None?;
            assert forall j :: 0 <= j < i + 1 ==> IdFailure(items[j]).None? by {
              forall j | 0 <= j < i + 1 ensures IdFailure(items[j]).None? {
                if j > 0 {
                  assert items[j] == items[1..][j - 1];
                }
              }
            }
            assert IdFailure(items[i + 1]) == Some(e);
          }
          Err(e)
        case Ok(rest) =>
          assert forall i :: 1 <= i < |items| ==> IdFailure(items[i]).None? by {
            forall i | 1 <= i < |items| ensures IdFailure(items[i]).None? {
              assert items[i] == items[1..][i - 1];
            }
          }
          Ok([items[0].entries["Id"]] + rest)
  }

  /** The comprehension over whatever the dict held: a list is iterated
      entry by entry; an empty string or dict yields no entry; a non-empty
      one yields a string entry, which `['Id']` rejects; None and numbers
      are not iterable. */
  function IdsOf(v: Value): (r: Result<seq<Value>>)
    ensures v.VList? ==> r == IdsOfItems(v.items)
    ensures !v.VList? ==> (r.Ok? <==> v == VStr("") || v == VDict(map[]))
    ensures !v.VList? && r.Ok? ==> r.value == []
    ensures !v.VList? && r.Err? ==> r.error == TypeError
  {
    match v
    case VList(items) => IdsOfItems(items)
    case VStr(s) => if s == "" then Ok([]) else Err(TypeError)
    case VDict(entries) => if entries == map[] then Ok([]) else Err(TypeError)
    case _ => Err(TypeError)
  }

  /** `v.split(';')`: only a string has a split method. */
  function SplitNames(v: Value): (r: Result<seq<string>>)
    ensures r.Ok? <==> v.VStr?
    ensures r.Err? ==> r.error == AttributeError("split")
    ensures r.Ok? ==> |r.value| >= 1 && Join(r.value, ';') == v.s
    ensures r.Ok? ==> forall i :: 0 <= i < |r.value| ==> ';' !in r.value[i]
  {
    if v.VStr? then Ok(Split(v.s, ';')) else Err(AttributeError("split"))
  }

  /** The query stream_url passes to get_url, in keyword order. */
  const StreamQuery: Query := [
    ("MaxStreamingBitrate", Num(140000000)),
    ("Container", Text("opus")),
    ("TranscodingContainer", Text("opus")),
    ("AudioCodec", Text("opus")),
    ("MaxSampleRate", Num(48000)),
    ("PlaySessionId", Num(1496213367201))]

  /** The get_url call of stream_url: the item's universal audio path, the
      connector's user id (not put in the query: pass_uid stays false), the
      fixed transcoding parameters, and the other arguments at their defaults. */
  function StreamRequest(id: Scalar, userId: Scalar): (req: UrlRequest)
    ensures ValidRequest(req)
    ensures req.path == "/Audio/" + Show(id) + "/universal"
    ensures req.query == StreamQuery && req.attachApiKey && !req.passUid
    ensures req.remote && !req.websocket
  {
    StreamQueryValid();
    UrlRequest(path := "/Audio/" + Show(id) + "/universal", userId := userId, query := StreamQuery)
  }

  /** The stream query is a dict none of whose keys get_url reserves. */
  lemma StreamQueryValid()
    ensures DistinctKeys(StreamQuery)
    ensures forall i :: 0 <= i < |StreamQuery| ==> StreamQuery[i].0 !in Reserved
  {
    var names := ["MaxStreamingBitrate", "Container", "TranscodingContainer", "AudioCodec", "MaxSampleRate", "PlaySessionId"];
    assert forall i :: 0 <= i < |StreamQuery| ==> StreamQuery[i].0 == names[i];
  }

  /** The stream query holds none of the keys get_url adds. */
  lemma StreamQueryKeys()
    ensures !HasKey(StreamQuery, "api_key") && !HasKey(StreamQuery, "deviceId") && !HasKey(StreamQuery, "userId")
  {
    var names := ["MaxStreamingBitrate", "Container", "TranscodingContainer", "AudioCodec", "MaxSampleRate", "PlaySessionId"];
    assert forall i :: 0 <= i < |StreamQuery| ==> StreamQuery[i].0 == names[i];
  }

  /** An Audio item. */
  class Audio {
    var objectDict: map<string, Value>
    const connector: Connector

    constructor (objectDict: map<string, Value>, connector: Connector)
      ensures this.objectDict == objectDict && this.connector == connector
    {
      this.objectDict := objectDict;
      this.connector := connector;
    }

    /** `album_id` */
    function AlbumId(): Value
      reads this
    {
      DictGet(objectDict, "AlbumId", VNull)
    }

    /** `index_number`, the track number on the disc */
    function IndexNumber(): Value
      reads this
    {
      DictGet(objectDict, "IndexNumber", VInt(1))
    }

    /** `track_number`, another name for index_number */
    function TrackNumber(): Value
      reads this
    {
      IndexNumber()
    }

    /** `album_artist_ids` */
    function AlbumArtistIds(): Result<seq<Value>>
      reads this
    {
      IdsOf(DictGet(objectDict, "AlbumArtists", VList([])))
    }

    /** `album_artist_names` */
    function AlbumArtistNames(): Result<seq<string>>
      reads this
    {
      SplitNames(DictGet(objectDict, "AlbumArtist", VStr("")))
    }

    /** `artist_ids` */
    function ArtistIds(): Result<seq<Value>>
      reads this
    {
      IdsOf(DictGet(objectDict, "ArtistItems", VList([])))
    }

    /** `artist_names` */
    function ArtistNames(): Value
      reads this
    {
      DictGet(objectDict, "Artists", VList([]))
    }

    /** `album_primary_image_tag` */
    function AlbumPrimaryImageTag(): Value
      reads this
    {
      DictGet(objectDict, "AlbumPrimaryImageTag", VNull)
    }

    /** `media_type` */
    function MediaType(): Value
      reads this
    {
      DictGet(objectDict, "MediaType", VStr("Audio"))
    }

    /** `type` */
    function ItemType(): Value
      reads this
    {
      DictGet(objectDict, "Type", VStr("Audio"))
    }

    /** What each property reads when its key is absent. */
    lemma Defaults()
      ensures "AlbumId" !in objectDict ==> AlbumId() == VNull
      ensures "IndexNumber" !in objectDict ==> IndexNumber() == VInt(1) && TrackNumber() == VInt(1)
      ensures "AlbumArtists" !in objectDict ==> AlbumArtistIds() == Ok([])
      ensures "AlbumArtist" !in objectDict ==> AlbumArtistNames() == Ok([""])
      ensures "ArtistItems" !in objectDict ==> ArtistIds() == Ok([])
      ensures "Artists" !in objectDict ==> ArtistNames() == VList([])
      ensures "AlbumPrimaryImageTag" !in objectDict ==> AlbumPrimaryImageTag() == VNull
      ensures "MediaType" !in objectDict ==> MediaType() == VStr("Audio")
      ensures "Type" !in objectDict ==> ItemType() == VStr("Audio")
    {
    }

    /** The Id lists follow the stored entries one for one, in order. */
    lemma ArtistIdsInOrder()
      ensures "AlbumArtists" in objectDict && objectDict["AlbumArtists"].VList? && AlbumArtistIds().Ok? ==>
                var entries := objectDict["AlbumArtists"].items;
                |AlbumArtistIds().value| == |entries|
                && forall k :: 0 <= k < |entries| ==> AlbumArtistIds().value[k] == entries[k].entries["Id"]
      ensures "ArtistItems" in objectDict && objectDict["ArtistItems"].VList? && ArtistIds().Ok? ==>
                var entries := objectDict["ArtistItems"].items;
                |ArtistIds().value| == |entries|
                && forall k :: 0 <= k < |entries| ==> ArtistIds().value[k] == entries[k].entries["Id"]
    {
    }

    /** The stored album artist string is recovered by joining the names
        with ';'. */
    lemma AlbumArtistNamesJoin()
      ensures "AlbumArtist" in objectDict && objectDict["AlbumArtist"].VStr? ==>
                AlbumArtistNames().Ok? && Join(AlbumArtistNames().value, ';') == objectDict["AlbumArtist"].s
    {
    }

    /** The `index_number` setter. */
    method SetIndexNumber(v: Value)
      modifies this
      ensures objectDict == old(objectDict)["IndexNumber" := v]
      ensures IndexNumber() == v && TrackNumber() == v
      ensures forall k :: k != "IndexNumber" ==> (k in objectDict <==> k in old(objectDict))
      ensures forall k :: k != "IndexNumber" && k in objectDict ==> objectDict[k] == old(objectDict)[k]
    {
      objectDict := objectDict["IndexNumber" := v];
    }

    /** The `track_number` setter, which goes through the index_number one. */
    method SetTrackNumber(v: Value)
      modifies this
      ensures objectDict == old(objectDict)["IndexNumber" := v]
      ensures IndexNumber() == v && TrackNumber() == v
      ensures forall k :: k != "IndexNumber" ==> (k in objectDict <==> k in old(objectDict))
      ensures forall k :: k != "IndexNumber" && k in objectDict ==> objectDict[k] == old(objectDict)[k]
    {
      SetIndexNumber(v);
    }

    /** `stream_url` for the item whose id is `id`: the remote universal
        audio URL with the fixed parameters followed by the key and the device
        id, and no user id. */
    method StreamUrl(id: Scalar, quote: Quoter) returns (r: Result<string>)
      ensures r == connector.UrlFor(StreamRequest(id, connector.userId), quote)
      ensures r.Ok?
      ensures connector.FinalQuery(StreamRequest(id, connector.userId))
              == StreamQuery + [("api_key", connector.apiKey), ("deviceId", connector.deviceId)]
    {
      var req := StreamRequest(id, connector.userId);
      StreamQueryKeys();
      connector.CredentialsAppended(req);
      r := connector.GetUrl(req, quote);
    }
  }

  /** A Person item (cast and crew). */
  class Person {
    var objectDict: map<string, Value>
    const connector: Connector

    constructor (objectDict: map<string, Value>, connector: Connector)
      ensures this.objectDict == objectDict && this.connector == connector
    {
      this.objectDict := objectDict;
      this.connector := connector;
    }

    /** `role`, the role the person played */
    function Role(): Value
      reads this
    {
      DictGet(objectDict, "Role", VStr(""))
    }

    /** `type` */
    function ItemType(): Value
      reads this
    {
      DictGet(objectDict, "Type", VStr("Person"))
    }

    /** `primary_image_tag` */
    function PrimaryImageTag(): Value
      reads this
    {
      DictGet(objectDict, "PrimaryImageTag", VNull)
    }

    /** `premiere_date` */
    function PremiereDate(): Value
      reads this
    {
      DictGet(objectDict, "PremiereDate", VNull)
    }

    /** What each property reads when its key is absent. */
    lemma Defaults()
      ensures "Role" !in objectDict ==> Role() == VStr("")
      ensures "Type" !in objectDict ==> ItemType() == VStr("Person")
      ensures "PrimaryImageTag" !in objectDict ==> PrimaryImageTag() == VNull
      ensures "PremiereDate" !in objectDict ==> PremiereDate() == VNull
    {
    }

    /** The `role` setter. */
    method SetRole(v: Value)
      modifies this
      ensures objectDict == old(objectDict)["Role" := v]
      ensures Role() == v
      ensures forall k :: k != "Role" ==> (k in objectDict <==> k in old(objectDict))
      ensures forall k :: k != "Role" && k in objectDict ==> objectDict[k] == old(objectDict)[k]
    {
      objectDict := objectDict["Role" := v];
    }
  }
}
