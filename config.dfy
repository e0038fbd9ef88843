/** fetchConfig: the three settings the bot needs, read from the process
    environment, which the model takes as a map from variable name to value. */
module Config {
  const Username := "BLUESKY_USERNAME"
  const Password := "BLUESKY_PASSWORD"
  const FeedUrl := "OSRS_RSS_URL"

  /** The required keys, in the order fetchConfig tests them. */
  const RequiredKeys: seq<string> := [Username, Password, FeedUrl]

  /** What fetchConfig produces: the settings, or the first key it found
      missing (the one its status line names). */
  datatype ConfigLoad = Loaded(values: map<string, string>) | MissingKey(key: string)
  {
    /** The dictionary the Python function returns: `{}` when a key is missing. */
    function Dict(): map<string, string>
    {
      if Loaded? then values else map[]
    }
  }

  function FetchConfig(env: map<string, string>): (r: ConfigLoad)
    // fails exactly when some required key is absent; presence is all that
    // is tested, so a key bound to "" passes
    ensures r.MissingKey? <==> exists i :: 0 <= i < |RequiredKeys| && RequiredKeys[i] !in env
    // the key reported is the first absent one in the fixed order
    ensures r.MissingKey? ==>
      exists i :: 0 <= i < |RequiredKeys| && RequiredKeys[i] == r.key && r.key !in env &&
        forall j :: 0 <= j < i ==> RequiredKeys[j] in env
    // on success, exactly the three keys, each with its environment value
    ensures r.Loaded? ==> r.values.Keys == {Username, Password, FeedUrl}
    ensures r.Loaded? ==> forall k :: k in r.values ==> k in env && r.values[k] == env[k]
    // the returned dictionary is falsy exactly on failure
    ensures r.Dict() == map[] <==> r.MissingKey?
  {
    if Username !in env then
      assert RequiredKeys[0] == Username;
      MissingKey(Username)
    else if Password !in env then
      assert RequiredKeys[1] == Password;
      MissingKey(Password)
    else if FeedUrl !in env then
      assert RequiredKeys[2] == FeedUrl;
      MissingKey(FeedUrl)
    else
      var values := map[Username := env[Username], Password := env[Password], FeedUrl := env[FeedUrl]];
      assert Username in values;
      Loaded(values)
  }
}
