/** The bot itself: loginBluesky, getLastPost, downloadImage, sendPost and
    main, acting on one client, with the pure functions that specify them. */
module Bot {
  import opened Wrappers
  import opened Config
  import opened Feed
  import opened Atproto

  /** `requests.get(url).content`, with the web taken as a map from URL to
      the bytes served there; a URL not in it raises, which downloadImage
      turns into None. */
  function DownloadImage(web: map<string, Bytes>, url: string): (r: Option<Bytes>)
    ensures r.Some? <==> url in web
    ensures r.Some? ==> r.value == web[url]
  {
    if url in web then Some(web[url]) else None
  }

  method LoginBluesky(client: Client, username: string, password: string) returns (ok: bool)
    modifies client`session
    ensures ok <==> LoginAccepted(client.server.repo, client.faults, username, password)
    ensures ok ==> client.session == Some(username)
    ensures !ok ==> client.session == old(client.session)
  {
    ok := client.Login(username, password);
  }

  /** What getLastPost returns: Some("") when the listing raises, None when
      it succeeds on an account with no records (the loop body never runs),
      otherwise the text of the first record. */
  function LastPost(repo: Repo, faults: Faults, session: Option<string>): (r: Option<string>)
    ensures r == None <==> !faults.list && session.Some? && repo.posts == []
    ensures faults.list || session.None? ==> r == Some("")
    ensures !faults.list && session.Some? && repo.posts != [] ==>
      r == Some(repo.posts[|repo.posts| - 1].text)
  {
    match ListLatest(repo, faults, session)
    case None => Some("")
    case Some(records) => if records == [] then None else Some(records[0].text)
  }

  method GetLastPost(client: Client) returns (last: Option<string>)
    ensures last == LastPost(client.server.repo, client.faults, client.session)
  {
    var records := client.ListLatestPosts();
    match records
    case None =>
      last := Some("");
    case Some(rs) =>
      last := None;
      if rs != [] {
        last := Some(rs[0].text);
      }
  }

  /** The keys sendPost requires, in the order it tests them (DATE is not one). */
  const PostKeys: seq<string> := [Title, Summary, Url, ImageUrl]

  /** The first required key the record lacks, if any. */
  function MissingPostKey(item: map<string, string>): (r: Option<string>)
    ensures r.None? <==> forall i :: 0 <= i < |PostKeys| ==> PostKeys[i] in item
    ensures r.Some? ==>
      exists i :: 0 <= i < |PostKeys| && PostKeys[i] == r.value && r.value !in item &&
        forall j :: 0 <= j < i ==> PostKeys[j] in item
  {
    if Title !in item then
      assert PostKeys[0] == Title;
      Some(Title)
    else if Summary !in item then
      assert PostKeys[1] == Summary;
      Some(Summary)
    else if Url !in item then
      assert PostKeys[2] == Url;
      Some(Url)
    else if ImageUrl !in item then
      assert PostKeys[3] == ImageUrl;
      Some(ImageUrl)
    else None
  }

  /** The embed built from the record's fields and the uploaded thumbnail. */
  function ComposeEmbed(item: map<string, string>, thumb: BlobRef): External
    requires Title in item && Summary in item && Url in item
  {
    External(item[Title], item[Summary], item[Url], thumb)
  }

  /** The outcome of sendPost and the account it leaves behind. */
  datatype PublishResult = PublishResult(ok: bool, repo: Repo)

  function Publish(item: map<string, string>, web: map<string, Bytes>, faults: Faults,
                   session: Option<string>, repo: Repo): (r: PublishResult)
    // a record lacking a required key fails before any network call
    ensures MissingPostKey(item).Some? ==> r == PublishResult(false, repo)
    // success needs the image to download and both calls to go through
    ensures r.ok <==>
      MissingPostKey(item).None? && item[ImageUrl] in web &&
      UploadAccepted(faults, session, Some(web[item[ImageUrl]])) && SendAccepted(faults, session)
    // a success adds the image and exactly one post: text and description are
    // the summary, the card's title and link come from the record, and its
    // thumbnail is the blob just uploaded
    ensures r.ok ==>
      r.repo == repo.(blobs := repo.blobs + [web[item[ImageUrl]]],
                      posts := repo.posts + [Post(item[Summary],
                                 External(item[Title], item[Summary], item[Url], BlobRef(|repo.blobs|)))])
    // a failure leaves no post; the image stays behind exactly when it was
    // uploaded before the send call was refused
    ensures !r.ok ==>
      r.repo == if MissingPostKey(item).None? && item[ImageUrl] in web &&
                   UploadAccepted(faults, session, Some(web[item[ImageUrl]]))
                then repo.(blobs := repo.blobs + [web[item[ImageUrl]]])
                else repo
  {
    if MissingPostKey(item).Some? then PublishResult(false, repo)
    else
      var image := DownloadImage(web, item[ImageUrl]);
      if !UploadAccepted(faults, session, image) then PublishResult(false, repo)
      else
        var thumb := BlobRef(|repo.blobs|);
        var uploaded := repo.(blobs := repo.blobs + [image.value]);
        if !SendAccepted(faults, session) then PublishResult(false, uploaded)
        else PublishResult(true, uploaded.(posts := uploaded.posts + [Post(item[Summary], ComposeEmbed(item, thumb))]))
  }

  method SendPost(client: Client, web: map<string, Bytes>, item: map<string, string>) returns (ok: bool)
    modifies client.server
    ensures ok == Publish(item, web, client.faults, client.session, old(client.server.repo)).ok
    ensures client.server.repo == Publish(item, web, client.faults, client.session, old(client.server.repo)).repo
  {
    if Title !in item {
      return false;
    }
    if Summary !in item {
      return false;
    }
    if Url !in item {
      return false;
    }
    if ImageUrl !in item {
      return false;
    }
    var image := DownloadImage(web, item[ImageUrl]);
    var uploaded, thumb := client.UploadBlob(image);
    if !uploaded {
      return false;
    }
    var embed := ComposeEmbed(item, thumb);
    ok := client.SendPost(item[Summary], embed);
  }

  /** The stages of main, in order. */
  datatype Stage = ConfigStage | LoginStage | DetectStage | PostStage

  datatype Outcome = Succeeded | FailedAt(stage: Stage)

  /** One run of main: how it ends and the account it leaves behind. */
  datatype RunResult = RunResult(outcome: Outcome, repo: Repo)

  /** The newest entry of the configured feed, when the configuration loads
      and the feed has one. */
  function NewestEntry(env: map<string, string>, documents: map<string, seq<Entry>>): Option<Entry>
  {
    var config := FetchConfig(env);
    if config.MissingKey? then None
    else
      var entries := Parse(documents, config.values[FeedUrl]);
      if entries == [] then None else Some(entries[0])
  }

  /** The run of main, as a function of everything outside the program: the
      environment, the feed documents, the web, the network faults and the
      account. */
  function Run(env: map<string, string>, documents: map<string, seq<Entry>>, web: map<string, Bytes>,
               faults: Faults, repo: Repo): (r: RunResult)
    // the configuration stage fails exactly when a required key is absent
    ensures r.outcome == FailedAt(ConfigStage) <==>
      Username !in env || Password !in env || FeedUrl !in env
    // the login stage fails exactly when the configured credentials are refused
    ensures r.outcome == FailedAt(LoginStage) <==>
      Username in env && Password in env && FeedUrl in env &&
      !LoginAccepted(repo, faults, env[Username], env[Password])
    // a run that stops before posting leaves the account as it was
    ensures r.outcome.FailedAt? && r.outcome.stage != PostStage ==> r.repo == repo
    // a failed run never adds a post
    ensures !r.outcome.Succeeded? ==> r.repo.posts == repo.posts
    // the post stage is reached exactly when the configuration loads, the
    // login is accepted and the newest entry is complete and new
    ensures r.outcome == Succeeded || r.outcome == FailedAt(PostStage) <==>
      Username in env && Password in env && FeedUrl in env &&
      LoginAccepted(repo, faults, env[Username], env[Password]) &&
      NewestEntry(env, documents).Some? && Complete(NewestEntry(env, documents).value) &&
      NewestEntry(env, documents).value.summary != LastPost(repo, faults, Some(env[Username]))
    // and the run succeeds exactly when, beyond that, the image is served and
    // the upload and send calls go through
    ensures r.outcome == Succeeded <==>
      Username in env && Password in env && FeedUrl in env &&
      LoginAccepted(repo, faults, env[Username], env[Password]) &&
      NewestEntry(env, documents).Some? && Complete(NewestEntry(env, documents).value) &&
      NewestEntry(env, documents).value.summary != LastPost(repo, faults, Some(env[Username])) &&
      NewestEntry(env, documents).value.links.value[0].href.value in web &&
      !faults.upload && !faults.send
    // a successful run adds exactly the newest entry's post and its image
    ensures r.outcome == Succeeded ==>
      NewestEntry(env, documents).Some? && Complete(NewestEntry(env, documents).value) &&
      var e := NewestEntry(env, documents).value;
      e.links.value[0].href.value in web &&
      r.repo == repo.(blobs := repo.blobs + [web[e.links.value[0].href.value]],
                      posts := repo.posts + [Post(e.summary.value,
                                 External(e.title.value, e.summary.value, e.link.value, BlobRef(|repo.blobs|)))])
  {
    var config := FetchConfig(env);
    if config.MissingKey? then RunResult(FailedAt(ConfigStage), repo)
    else
      var username := config.values[Username];
      if !LoginAccepted(repo, faults, username, config.values[Password]) then
        RunResult(FailedAt(LoginStage), repo)
      else
        var lastPost := LastPost(repo, faults, Some(username));
        var detection := FetchRSS(Parse(documents, config.values[FeedUrl]), lastPost);
        if !detection.NewItem? then RunResult(FailedAt(DetectStage), repo)
        else
          var published := Publish(detection.item, web, faults, Some(username), repo);
          if published.ok then RunResult(Succeeded, published.repo)
          else RunResult(FailedAt(PostStage), published.repo)
  }

  /** main: a fresh client on the given server, then the stages in order,
      returning false at the first one that fails. */
  method RunBot(env: map<string, string>, documents: map<string, seq<Entry>>, web: map<string, Bytes>,
                faults: Faults, server: Server) returns (ok: bool)
    modifies server
    ensures ok == Run(env, documents, web, faults, old(server.repo)).outcome.Succeeded?
    ensures server.repo == Run(env, documents, web, faults, old(server.repo)).repo
  {
    var configData := FetchConfig(env).Dict();
    if configData == map[] {
      return false;
    }
    var client := new Client(server, faults);
    var loginSuccess := LoginBluesky(client, configData[Username], configData[Password]);
    if !loginSuccess {
      return false;
    }
    var lastPost := GetLastPost(client);
    var content := FetchRSS(Parse(documents, configData[FeedUrl]), lastPost).Dict();
    if content == map[] {
      return false;
    }
    var postSuccess := SendPost(client, web, content);
    if !postSuccess {
      return false;
    }
    return true;
  }
}
