# OSRSBlueskyBot, modelled in Dafny

The bot (`main.py`) runs once per scheduler tick. It reads three settings from the environment. It logs in to Bluesky and looks up the text of the account's newest post. It parses an RSS feed and, if the newest entry's summary differs from that text, posts the entry: the summary as text, plus a link-preview card whose thumbnail is the entry's image, downloaded and uploaded as a blob. `main` returns `True` only when every stage succeeds.

The model has six modules:

- `Config`: `fetchConfig` over the environment, given as a `map<string, string>`.
- `Feed`: the parser's entries as values whose attributes may be absent, plus `fetchRSS` as the change detector. It returns `NoContent`, `Unchanged` or `NewItem(record)`, and `Dict()` gives the dictionary the Python code returns.
- `Atproto`: the Bluesky client. A `Server` object holds the account (`Repo`: credentials, uploaded blobs, posts oldest first). A `Client` object holds the login session. A `Faults` value says which of the four network calls (login, list, upload, send) raise. Login also fails when the credentials are not the account's.
- `Bot`: `loginBluesky`, `getLastPost`, `downloadImage`, `sendPost` and `main`. The imperative methods act on one client. Each is proved against a pure function (`LastPost`, `Publish`, `Run`), and those functions' contracts state what the source promises.
- `Runs`: what repeated runs on an unchanged feed do to the account.
- `Wrappers`: `Option`.

Things outside the program are parameters:

- the environment;
- the feed documents, a map from URL to entries (an unknown URL parses to no entries);
- the web, a map from URL to bytes (an unknown URL makes `requests.get` raise, so `downloadImage` returns None);
- the network faults;
- the account.

## Model

| member | source | states |
|---|---|---|
| Config.FetchConfig | main.py:120-139 | fails exactly when one of BLUESKY_USERNAME, BLUESKY_PASSWORD, OSRS_RSS_URL is absent (presence only, so "" passes); reports the first absent key in that order; on success holds exactly those three keys with their environment values; the dictionary is empty exactly on failure |
| Feed.FetchRSS | main.py:175-200 | Unchanged exactly when the first entry has a summary equal to the last post's text, whatever its other attributes; a new item exactly when the first entry is complete (title, summary, link, published, links[0].href) and its summary differs; the record holds exactly TITLE, SUMMARY, URL, DATE, IMAGEURL copied from the first entry; otherwise (no entries, missing attribute) the empty dictionary |
| Feed.OnlyNewestEntryMatters | main.py:186-194 | two feeds with the same first entry give the same result: later entries are never consulted |
| Atproto.Client.Login | main.py:165 | the login succeeds exactly when the network call goes through and the credentials are the account's; it then records the session |
| Atproto.Client.ListLatestPosts | main.py:147 | lists the account's newest post; raises (None) on a network fault or when no one is logged in |
| Atproto.Client.UploadBlob | main.py:240 | on success appends the data to the account's blobs and returns a reference to it; raises, changing nothing, on a fault, without a session or when given no data |
| Atproto.Client.SendPost | main.py:253 | on success appends exactly one post with the given text and embed; otherwise the account is unchanged |
| Bot.LoginBluesky | main.py:158-172 | true exactly when the client's login is accepted, and then the session is the username; a raised login becomes false and leaves the session alone |
| Bot.LastPost | main.py:141-153 | None exactly when the listing works and the account has no posts; "" when the listing raises; otherwise the text of the account's newest post |
| Bot.GetLastPost | main.py:141-153 | returns what LastPost states for the client's account, faults and session |
| Bot.DownloadImage | main.py:203-212 | some bytes exactly when the URL is served, and then the bytes served there; None when the request raises |
| Bot.MissingPostKey | main.py:220-232 | no key is reported exactly when TITLE, SUMMARY, URL and IMAGEURL are all present (DATE is not required); otherwise the first missing key in that order |
| Bot.Publish | main.py:216-260 | a record lacking a required key fails with the account untouched; success exactly when the image downloads and the upload and send calls go through; a success adds the image blob and exactly one post whose text and description are SUMMARY, title TITLE, uri URL and thumbnail the blob just uploaded; a failure adds no post, and leaves an orphaned blob exactly when the upload went through before the send was refused |
| Bot.SendPost | main.py:216-260 | returns and leaves the account as Publish states, checking the four keys before any call |
| Bot.Run | main.py:30-116 | the config stage fails exactly when a key is absent; the login stage fails exactly when the configured credentials are refused; the post stage is reached exactly when the config loads, the login is accepted and the newest entry is complete with a summary different from the looked-up last post; the run succeeds exactly when, beyond that, the image is served and the upload and send calls go through; a run stopping before the post stage leaves the account unchanged; no failed run adds a post; a success adds exactly the newest entry's post and its image |
| Bot.RunBot | main.py:30-116 | returns true and leaves the account exactly as Run states: stages in order, the first failure returns false and no later stage runs |
| Runs.CaughtUpRunIsIdle | main.py:69-96 | when the account's newest post already carries the newest entry's summary and the lookup works, a run posts nothing and changes nothing |
| Runs.SuccessfulRunCatchesUp | main.py:98-116 | after a successful run the account's newest post carries the newest entry's summary |
| Runs.CaughtUpStaysIdle | main.py:69-96 | once caught up, any number of further runs with working lookups leave the account unchanged |
| Runs.RepeatedRunsPostAtMostOnce | main.py:30-116 | any sequence of runs on an unchanged feed with working lookups adds at most one post and keeps the earlier posts |
| Runs.LookupFailureRepostsNewestEntry | main.py:150-153 | when the lookup raises right after a successful run, the marker is "" and the same entry is posted a second time (unless its summary is empty) |
| Runs.EmptyHistoryTreatsEntryAsNew | main.py:145-149 | an account with no posts gives the marker None, so a complete newest entry always reaches the post stage |

## Left out

- Logging: every `print` status line, the exception messages and the final "succeeded"/"failed" banner are not modelled. The key that `fetchConfig` and `sendPost` would name is kept as a value (`MissingKey`, `MissingPostKey`).
- The internals of the atproto client are not modelled. Login, listing, blob upload and post submission succeed or fail according to a `Faults` value and the account's credentials. Server-side rejections, such as a post text over the length limit, count as a `send` fault.
- A client call that raises is taken to leave the account unchanged. A `send_post` or `upload_blob` that raises after the server has stored the record (for example on a read time-out) is not modelled. Bot.Publish's and Bot.Run's "a failure adds no post" rest on this assumption. Runs.RepeatedRunsPostAtMostOnce would still hold in that case, because the next working lookup sees the stored post.
- `upload_blob(None)` is taken to raise. The source does not show this; it would be the client's behaviour.
- The blob reference is the blob's position among the account's uploads, not a content identifier.
- `feedparser.parse` is not modelled. Its output is an input: a map from URL to a sequence of entries whose attributes may be absent.
- An exception raised by `feedparser.parse` is not modelled. The call sits before the `try` in `fetchRSS` (main.py:180-182), and `main` catches nothing, so such an exception would escape `main` instead of making it return `False`. The model assumes the parser returns some entries or none.
- `requests.get` is not modelled. The web is an input map from URL to bytes, and an HTTP error page counts as served bytes, as in the source.
- Reading `os.environ` is not modelled; the environment is an input map. The unused `dotenv` import plays no part.
- Bot.SendPost: on a missing key the source returns `{}` rather than `False`. Both are falsy and `main` only tests truthiness, so the model returns false.
- Bot.GetLastPost: the source's `for` loop over the listed records returns in its first iteration. The model takes the first record directly instead of looping.
- The listing call asks for at most one record (`limit=1`), so the model returns only the account's newest post.
