# embypy connector and media objects, in Dafny

This project models the client side of the Emby API wrapper `embypy`:

- **`Connector`** (`embypy/utils/connector.py`). This covers:
  - construction: the credential check, the stored configuration with its defaults, the `Authorization` header, and the push-socket URL;
  - `get_url`, which builds every request URL: the user id, the query dict it updates in place, the host and scheme choice, `urlunparse`, `str.format` of the placeholders, and the trailing-`?` strip;
  - the bounded retry loop shared by `get`, `delete` and `post`;
  - `getJson` as the composition of `get` and a JSON decode.
- **`Audio` and `Person`** (`embypy/objects/misc.py`). Their properties read the item's `object_dict` with defaults, through list comprehensions and `split(';')`. Their setters assign one key in place. `stream_url` is a fixed `get_url` call.

Files:

- `pyvalues.dfy`: the Python values involved. It covers keyword arguments that may be absent, `str()` of a scalar (None, a bool, an int or a str), decoded JSON, and the exceptions that can surface.
- `strings.dfy`: `str.format` with named fields as a one-pass substitution, and `str.split` / `str.join` on one character.
- `query.dfy`: the ordered query dict and its `urlencode`.
- `connector.dfy`: the `Connector` class, its retry loop, and the reference definitions `UrlFor` and `Retry` that its methods are proved against.
- `misc.dfy`: the `Audio` and `Person` classes.

The HTTP transport is modelled as a function from attempt index to outcome: a response, or an exception. An exception carries flags saying whether it is a `requests` `Timeout` and/or a `ConnectionError`; `ConnectTimeout` is both. A call returns the sequence of requests it sent next to its result, so "no further attempt is made" is stated about that sequence.

The code has none of the following, so none is modelled:

- a per-context session pool;
- a login-in-progress flag;
- a 401-triggered re-login;
- a decode error carrying the status and body.

Every URL-building call takes the request as a `UrlRequest`: get_url's named parameters plus the `**query` dict. That dict comes from Python keyword arguments, so its keys are distinct and none of them is a name get_url binds itself (`self`, `path`, `websocket`, `remote`, `attach_api_key`, `userId`, `pass_uid`). `ValidRequest` states this, and every operation on a request assumes it. For `post`, the name `data` is excluded as well.

Only the `?` separator of an empty query is stripped. A URL with a non-empty query never ends in `?` (`NoTrailingMark`). With `attach_api_key=False`, an empty query and a path that itself ends in `?`, the URL keeps that `?`.

## Model

| member | source | states |
|---|---|---|
| Connection.Connector.Connect | embypy/utils/connector.py:109-145 | The three failures, in source order. ValueError exactly when `api_key` or `device_id` and `username` or `password` are missing as keywords (presence, not truthiness). Otherwise KeyError for a socket on a scheme other than http/https. Otherwise NameError on `pw` when `password` and `username` are both truthy, because the login block's first step calls that undefined name. In every other case a fresh connector in its initial state. |
| Connection.CredentialKwargs | embypy/utils/connector.py:110-121 | Reading the credentials from `**kargs`: the check passes exactly when `api_key` and `device_id`, or `username` and `password`, are keyword names, and a passed key or device id is stored unchanged. |
| Connection.DocumentedKeyRefused | embypy/utils/connector.py:75 | Passing the key as the documented keyword `api-key`, with `device_id`, fails the constructor's check. |
| Connection.ApiKeyAccepted | embypy/utils/connector.py:110-121 | Passing the key as `api_key`, with `device_id`, passes the check, and both values are stored. |
| Connection.CredentialsGiven | embypy/utils/connector.py:110-111 | The constructor's check: `api_key` and `device_id`, or `username` and `password`, were passed as keywords, whatever their values. |
| Connection.LoginAttempted | embypy/utils/connector.py:143 | `self.password and self.username`: both are truthy. |
| Connection.Connector.constructor | embypy/utils/connector.py:114-143 | The initial state: every field comes from its keyword, with `tries` 3 and `userid`, `api_key`, etc. None when absent. `token` is `''`. The Authorization header is set. The socket URL is `get_url(websocket=True)` exactly when `ws` was passed. The login block is not entered. |
| Connection.Connector.OpenSocket | embypy/utils/connector.py:129-133 | When `ws` was passed, the socket URL is `get_url(websocket=True)`, which then succeeds; otherwise there is no socket. Nothing else changes. |
| Connection.AuthorizationHeaderFormat | embypy/utils/connector.py:135-140 | Formatting the header template with `'Navi'`, the device id and the version gives exactly `MediaBrowser Client="Navi", Device="Navi", DeviceId="<device id>", Version="<version>"`. |
| Connection.AuthorizationHeader | embypy/utils/connector.py:135-140 | The header value in closed form: `MediaBrowser Client="Navi", Device="Navi", DeviceId="<device id>", Version="<version>"`. |
| Connection.SchemeFor | embypy/utils/connector.py:227-230 | Without a socket the scheme is unchanged. With one, http becomes ws, https becomes wss, and any other scheme has no mapping. |
| Connection.ChooseHost | embypy/utils/connector.py:222-225 | `self.urlremote or self.url` when `remote` is set, otherwise `self.url`. |
| Connection.Unparse | embypy/utils/connector.py:233 | `urlunparse` of scheme, netloc, path and query with empty params and fragment: `//netloc`, then the path with a `/` put in front when it lacks one, `scheme:` in front when the scheme is non-empty, and `?query` after when the query is non-empty. |
| Connection.SetWhen | embypy/utils/connector.py:217-220 | A conditional dict assignment keeps keys distinct and the existing keys in order. After it, lookups of the assigned key see the new value and lookups of every other key are unchanged. |
| Connection.Connector.FinalQuery | embypy/utils/connector.py:216-220 | The final query keeps the caller's keys in order. Every key's value is given by `QueryValue`: `userId` is the given id or the default when `pass_uid` is set; `api_key` and `deviceId` are the connector's when `attach_api_key` is set; any other key keeps the caller's value. The query's keys stay distinct. |
| Connection.Connector.UserIdPassed | embypy/utils/connector.py:184-220 | The query holds `userId` exactly when `pass_uid` is set. A caller cannot supply that key, because `userId` is a named parameter of get_url. |
| Connection.Connector.ResolveUserId | embypy/utils/connector.py:216 | `userId or self.userid`: the given user id when truthy, otherwise the connector's. |
| Connection.Connector.BuildQuery | embypy/utils/connector.py:216-220 | Updating the `**query` dict in place, as get_url does, yields exactly `FinalQuery`. |
| Connection.Connector.CredentialsAppended | embypy/utils/connector.py:217-220 | Attaching the key assigns `api_key` and then `deviceId`. A credential the caller already gave keeps its position and takes the connector's value. A missing one is appended after the caller's parameters, `api_key` first. With `pass_uid`, `userId` follows, holding the resolved user id. So when the caller gave neither, the query is the caller's parameters followed by `api_key` and `deviceId`. |
| Connection.Connector.KeyAttached | embypy/utils/connector.py:217-218 | Attaching the key leaves the query non-empty. |
| Connection.Connector.GetUrl | embypy/utils/connector.py:184-240 | The in-place procedure returns exactly `UrlFor`: a KeyError for an unmapped socket scheme, otherwise the assembled URL. |
| Connection.Connector.UrlFor | embypy/utils/connector.py:184-240 | What get_url returns: KeyError for a socket on a scheme other than http or https; otherwise the URL assembled from the chosen host under `/emby`, the path, the resolved user id and the final query. |
| Connection.Connector.Assembled | embypy/utils/connector.py:231-240 | The unparsed `scheme://netloc<path>` formatted with the fields `UserId`, `ApiKey`, `DeviceId` and `params`, then `?` and the encoded query only when the query is non-empty. |
| Connection.Connector.RenderUrl | embypy/utils/connector.py:231-240 | Unparsing with the `{params}` slot, formatting, then dropping one trailing `?` gives the formatted base. The base is followed by `?` and the encoded query exactly when the query is non-empty. |
| Connection.Connector.ParamsSlot | embypy/utils/connector.py:233-238 | Formatting `prefix?{params}` gives the formatted prefix, then `?`, then the encoded query inserted verbatim. |
| Connection.Connector.DropTrailingMark | embypy/utils/connector.py:240 | `base?params` ends in `?` exactly when params is empty, and dropping that `?` leaves base. |
| Connection.Connector.UrlShape | embypy/utils/connector.py:222-240 | For a path starting with `/`, the URL is `<scheme>://<netloc>/emby<formatted path>`, followed by `?<encoded query>` only when the query is non-empty. The scheme is ws/wss for sockets. The host is the remote one when requested and configured. |
| Connection.Connector.RequestsGoRemote | embypy/utils/connector.py:222-224 | With `remote` at its default and a remote address configured, the URL a call sends starts with the remote address's scheme (or socket scheme), its netloc and `/emby`. |
| Connection.Connector.LocalRequests | embypy/utils/connector.py:225-226 | With `remote=False`, the URL a call sends starts with the scheme (or socket scheme) and netloc of `url`, then `/emby`, whether or not a remote address is configured. |
| Connection.Connector.NoTrailingMark | embypy/utils/connector.py:240 | With a non-empty query, which attaching the key guarantees, the URL does not end in `?`. |
| Connection.Connector.PathPlaceholders | embypy/utils/connector.py:233-237 | `{UserId}`, `{ApiKey}` and `{DeviceId}` in the URL become the resolved user id, the key and the device id. |
| Connection.RetrySkip | embypy/utils/connector.py:268-279 | Attempts that failed with a caught exception before the last one are passed over. |
| Connection.RetryFrom | embypy/utils/connector.py:268-279 | The loop from attempt i on: the first response; a caught Timeout or ConnectionError skipped, except on the last attempt, where it surfaces; any other exception raised at once; None once `range(tries)` is used up. |
| Connection.Retry | embypy/utils/connector.py:268-279 | The loop from attempt 0, the reference the `Send` loop is proved equal to. |
| Connection.Surfaced | embypy/utils/connector.py:274-279 | The exception raised on the last attempt: `Timeout` with `'Timeout '` and the URL when the failure is a Timeout (that clause comes first), otherwise ConnectionError `'Emby server is probably down'`. |
| Connection.RetryNoTries | embypy/utils/connector.py:268-279 | With `tries <= 0` no attempt is made and the result is None. |
| Connection.RetryFirstResponse | embypy/utils/connector.py:268-273 | The first response that follows only caught failures is returned, and the call makes no later attempt. |
| Connection.RetryUncaught | embypy/utils/connector.py:268-279 | An exception that is neither Timeout nor ConnectionError propagates from the attempt it occurs on, without retry. |
| Connection.RetryExhausted | embypy/utils/connector.py:274-279 | When all attempts fail in a caught way, exactly `tries` attempts are made. Only the last failure surfaces: `Timeout('Timeout ', url)` if it is a Timeout (that clause comes first), else `ConnectionError('Emby server is probably down')`. |
| Connection.RetryAttempts | embypy/utils/connector.py:268-279 | A call with `tries > 0` makes between 1 and `tries` attempts, and every attempt but the last failed in a caught way. |
| Connection.Connector.Send | embypy/utils/connector.py:268-279 | The loop's result and number of attempts are those of `Retry`. Every attempt sends the same request. |
| Connection.Connector.Get | embypy/utils/connector.py:246-279 | `get`: a URL error, or the retried GET of the built URL. |
| Connection.Connector.Delete | embypy/utils/connector.py:281-313 | `delete`: the same policy as get, with DELETE requests. |
| Connection.Connector.Post | embypy/utils/connector.py:315-347 | `post`: the same policy as get, with POST requests carrying the data (default `{}`). Its `**params` cannot hold `data`, which is post's own parameter. |
| Connection.Connector.GetJson | embypy/utils/connector.py:350-370 | `getJson` is the body of get's response. It fails with get's error, with AttributeError when get returned None, or with a decode error. Every attempt sends a GET of the built URL. |
| Connection.JsonOfNoTries | embypy/utils/connector.py:268-279 | With `tries <= 0`, getJson fails with AttributeError on `None.json()`. |
| Connection.JsonOf | embypy/utils/connector.py:370 | `(await self.get(...)).json()`: get's error, AttributeError when get returned None, a decode error for a body that is not JSON, otherwise the decoded body. |
| Strings.FormatAppend | embypy/utils/connector.py:233-238 | Formatting distributes over a split point that no placeholder can span. |
| Strings.FormatTextThen | embypy/utils/connector.py:233-238 | Text without `{` is copied unchanged by format. |
| Strings.FormatFieldThen | embypy/utils/connector.py:233-238 | A `{name}` of a given field is replaced by that field's value. |
| Strings.Format | embypy/utils/connector.py:233-238 | `str.format` with keyword fields only: each `{name}` of a given field becomes its value, every other character is copied, and an inserted value is not scanned again. |
| Strings.Join | embypy/objects/misc.py:59 | `sep.join(parts)`: the parts with one separator between each two, and `""` for no parts. |
| Strings.Split | embypy/objects/misc.py:59 | `split(';')` returns at least one part, no part contains `;`, and joining the parts with `;` gives back the string. |
| Strings.SplitJoin | embypy/objects/misc.py:59 | Splitting a join of separator-free parts gives the parts back. |
| QueryString.Lookup | embypy/utils/connector.py:216-220 | `q.get(k)` is defined exactly when `k` is a key, and is then that key's value. |
| QueryString.Set | embypy/utils/connector.py:217-220 | Dict assignment: an existing key keeps its position with the new value, and a new key goes at the end. Keys stay distinct and nothing else changes. |
| QueryString.LookupSet | embypy/utils/connector.py:217-220 | After `q[k] = v`, `q.get(k)` is v and every other key's lookup is unchanged. |
| QueryString.SetAppends | embypy/utils/connector.py:217-220 | Assigning an absent key is appending the pair. |
| QueryString.SetReplaces | embypy/utils/connector.py:217-220 | Assigning a present key replaces its pair where it stands. |
| QueryString.Encode | embypy/utils/connector.py:237 | `urlencode` is empty exactly for the empty query and never contains `?`. |
| QueryString.EncodePair | embypy/utils/connector.py:237 | One `key=value` item of `urlencode`: the quoted key, `=`, and the quoted `str()` of the value; it holds `=` and no `?`. |
| PyValues.DictGet | embypy/objects/misc.py:23 | `d.get(key, default)`: the stored value when the key is present, otherwise the default. |
| PyValues.Truthy | embypy/utils/connector.py:216 | Python truthiness of a scalar: None and False are falsy, as are 0 and `''`; everything else is truthy. |
| PyValues.Show | embypy/utils/connector.py:234-237 | `str()` of a scalar: `None`, `True`/`False`, the decimal digits of an int with `-` for a negative one, or the string itself. |
| PyValues.NatToString | embypy/utils/connector.py:234-237 | The decimal form of a natural number: at least one digit, no leading zero, only digits, and the digits spell the number back. |
| MediaObjects.IdFailure | embypy/objects/misc.py:53-54 | `a['Id']` succeeds exactly on a dict holding `Id`. |
| MediaObjects.IdsOfItems | embypy/objects/misc.py:53-54 | The comprehension succeeds exactly when every entry is a dict with an `Id`. It then yields those Ids one per entry, in order. Otherwise it raises the error of the first failing entry. |
| MediaObjects.IdsOf | embypy/objects/misc.py:53-54 | Lists are iterated entry by entry. An empty string or dict yields `[]`. Any other non-list value raises TypeError. |
| MediaObjects.SplitNames | embypy/objects/misc.py:59 | A stored string splits into at least one `;`-free part that joins back to it. A non-string raises AttributeError (no `split`). |
| MediaObjects.Audio.Defaults | embypy/objects/misc.py:20-99 | With their keys absent, the properties read: `album_id` None; `index_number` and `track_number` 1; the id lists `[]`; `album_artist_names` `['']`; `artist_names` `[]`; `album_primary_image_tag` None; `media_type` and `type` `'Audio'`. |
| MediaObjects.Audio.ArtistIdsInOrder | embypy/objects/misc.py:50-73 | `album_artist_ids` and `artist_ids` have the length and order of `AlbumArtists` / `ArtistItems`. Element k is the `Id` of entry k. |
| MediaObjects.Audio.AlbumArtistNamesJoin | embypy/objects/misc.py:56-59 | Joining `album_artist_names` with `;` gives back the stored `AlbumArtist`. |
| MediaObjects.Audio.SetIndexNumber | embypy/objects/misc.py:38-44 | After setting `index_number` to v, both `index_number` and `track_number` read v. Only the `IndexNumber` key changes. |
| MediaObjects.Audio.SetTrackNumber | embypy/objects/misc.py:42-48 | Setting `track_number` does the same through the index_number setter. |
| MediaObjects.StreamRequest | embypy/objects/misc.py:102-113 | The path is `/Audio/<id>/universal`. The query is the six fixed parameters in keyword order. The key is attached and `pass_uid` is off. It is a valid get_url call. |
| MediaObjects.StreamQueryValid | embypy/objects/misc.py:105-113 | The six parameter names are distinct, and none is a get_url parameter name. |
| MediaObjects.StreamQueryKeys | embypy/objects/misc.py:105-113 | The fixed parameters hold none of `api_key`, `deviceId`, `userId`. |
| MediaObjects.Audio.StreamUrl | embypy/objects/misc.py:101-113 | `stream_url` is the `get_url` of that request and never fails. Its query is `MaxStreamingBitrate=140000000, Container=opus, TranscodingContainer=opus, AudioCodec=opus, MaxSampleRate=48000, PlaySessionId=1496213367201`, then `api_key` and `deviceId`, with no `userId`. |
| MediaObjects.Audio.constructor | embypy/objects/misc.py:17-18 | The item wraps the given `object_dict` and connector. |
| MediaObjects.Audio.AlbumId | embypy/objects/misc.py:20-23 | `object_dict.get('AlbumId')`. |
| MediaObjects.Audio.IndexNumber | embypy/objects/misc.py:33-36 | `object_dict.get('IndexNumber', 1)`. |
| MediaObjects.Audio.TrackNumber | embypy/objects/misc.py:42-44 | `index_number`. |
| MediaObjects.Audio.AlbumArtistIds | embypy/objects/misc.py:50-54 | `[a['Id'] for a in object_dict.get('AlbumArtists', [])]`, through `IdsOf`: the error Python raises at the first entry without an `Id`, or for a stored value it cannot iterate. |
| MediaObjects.Audio.AlbumArtistNames | embypy/objects/misc.py:56-59 | `object_dict.get('AlbumArtist', '').split(';')`, or AttributeError when the stored value is not a string. |
| MediaObjects.Audio.ArtistIds | embypy/objects/misc.py:69-73 | `[a['Id'] for a in object_dict.get('ArtistItems', [])]`, through `IdsOf`: the error Python raises at the first entry without an `Id`, or for a stored value it cannot iterate. |
| MediaObjects.Audio.ArtistNames | embypy/objects/misc.py:75-78 | `object_dict.get('Artists', [])`. |
| MediaObjects.Audio.AlbumPrimaryImageTag | embypy/objects/misc.py:89-91 | `object_dict.get('AlbumPrimaryImageTag')`. |
| MediaObjects.Audio.MediaType | embypy/objects/misc.py:93-95 | `object_dict.get('MediaType', 'Audio')`. |
| MediaObjects.Audio.ItemType | embypy/objects/misc.py:97-99 | `object_dict.get('Type', 'Audio')`. |
| MediaObjects.Person.Defaults | embypy/objects/misc.py:129-148 | With their keys absent: `role` is `''`, `type` is `'Person'`, and `primary_image_tag` and `premiere_date` are None. |
| MediaObjects.Person.SetRole | embypy/objects/misc.py:134-136 | After setting `role` to v, `role` reads v. Only the `Role` key changes. |
| MediaObjects.Person.constructor | embypy/objects/misc.py:126-127 | The item wraps the given `object_dict` and connector. |
| MediaObjects.Person.Role | embypy/objects/misc.py:129-132 | `object_dict.get('Role', '')`. |
| MediaObjects.Person.ItemType | embypy/objects/misc.py:138-140 | `object_dict.get('Type', 'Person')`. |
| MediaObjects.Person.PrimaryImageTag | embypy/objects/misc.py:142-144 | `object_dict.get('PrimaryImageTag')`. |
| MediaObjects.Person.PremiereDate | embypy/objects/misc.py:146-148 | `object_dict.get('PremiereDate')`. |

## Findings

| source | as written | input that shows it | evidently intended | confidence | as-written member | corrected member |
|---|---|---|---|---|---|---|
| embypy/utils/connector.py:103 | `get`, `delete` and `post` call `get_url(path, **query)`, leaving `remote=True` (connector.py:184, 266, 300, 334), so `self.urlremote or self.url` (223) sends every request to the remote address once one is configured; the push socket is opened there too (131) | `Connector('http://lan:8096', api_key=k, device_id=d, **{'address-remote': 'https://public.example'})`, then `get('/Items')`: the request goes to `https://public.example/emby/Items?…` | the documented behaviour: the remote address is for output only, and requests always go to `url` | medium, not executed | Connection.Connector.RequestsGoRemote | Connection.Connector.LocalRequests |
| embypy/utils/connector.py:75 | the documented keyword is `api-key`, but the constructor checks for and reads `api_key` (110, 117) | `Connector(url, **{'api-key': k, 'device_id': d})` raises ValueError | the keyword the constructor reads, `api_key` | high, not executed | Connection.DocumentedKeyRefused | Connection.ApiKeyAccepted |

The model keeps the code's behaviour in both cases: `get`, `delete` and `post` use get_url's default `remote=True`, and `Connect` reads `api_key`.

## Left out

- The `WebSocket` class (connector.py:17-66), `add_on_message`, and opening the push socket. The model keeps only the URL the socket would be opened on.
- The transport itself: the `aiohttp` session, its timeout and `ssl` arguments, and the JSON decoding of a body. Each attempt's outcome is a parameter instead. The source catches `requests` exception classes around an `aiohttp` session; the model takes the exception kinds as given.
- The login block of the constructor (connector.py:142-152) past its first step. That step evaluates `pw(self.password)`, and `pw` is defined nowhere, so the block always raises NameError; `Connect` models that. The rest of the block (the post, reading `AccessToken`, the token header) is never reached, so `token` stays `''`.
- `__del__`, `sync_run` and the `*_sync` wrappers: event-loop plumbing.
- The `timeout`, `ssl` and `loop` settings: values passed through to the transport untouched.
- `urlparse`. The base and remote addresses are given already split into scheme and netloc, and a falsy remote address is given as absent.
- `quote_plus`. It is abstract: any encoder of one component that never produces `?`.
- `str.format`. Only exact `{name}` fields are substituted, and every other character is copied. Python would instead:
  - unescape `{{` and `}}`;
  - raise KeyError on an unknown field;
  - raise ValueError on a bare `{` or a lone `}` ("Single '}' encountered");
  - apply a conversion or format spec such as `{UserId!r}` or `{UserId:>8}`, which the model copies verbatim.
  - raise IndexError on an automatic or numbered field such as `{}` or `{0}`, since get_url passes no positional argument;
  - index or look up an attribute in a field such as `{UserId[0]}` or `{ApiKey.upper}`, which the model copies verbatim.
- `Connection.AuthorizationHeader`: `__version__` is not part of this model, so the version string is a parameter.
- `MediaObjects.Audio.StreamUrl`: `EmbyObject.id` is not part of this model, so the item id is a parameter, rendered with `str()`.
- Floats. A query value, a keyword argument and a decoded JSON number are None, a bool, an int or a str; a float is not represented, so its `str()` form is not modelled.
- The async `album`, `artists` and `album_artists` properties and their `_sync` forms. They depend on `EmbyObject.process`, which is not part of this model.
- `Image`, `Game` and `Book`, which add no logic.
