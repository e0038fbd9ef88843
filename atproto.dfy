/** The part of the Bluesky client (atproto) the bot uses, modelled as state:
    a Server holding the account's repository and a Client holding a login
    session. What the remote side does on each call is decided by the
    repository (its credentials) and by a Faults value saying which calls fail
    on the network. */
module Atproto {
  import opened Wrappers

  newtype byte = x: int | 0 <= x < 256
  type Bytes = seq<byte>

  /** The reference upload_blob hands back: the position of the blob in the
      repository's uploads. */
  datatype BlobRef = BlobRef(index: nat)

  /** An external-link embed (a link-preview card). */
  datatype External = External(title: string, description: string, uri: string, thumb: BlobRef)

  datatype Post = Post(text: string, embed: External)

  /** The account as the service stores it: its login credentials, the blobs
      uploaded to it and its posts, oldest first. */
  datatype Repo = Repo(identifier: string, secret: string, blobs: seq<Bytes>, posts: seq<Post>)

  /** Which client calls fail on the network (each raises an exception). */
  datatype Faults = Faults(login: bool, list: bool, upload: bool, send: bool)

  predicate LoginAccepted(repo: Repo, faults: Faults, identifier: string, secret: string)
  {
    !faults.login && identifier == repo.identifier && secret == repo.secret
  }

  /** `post.list(me.did, limit=1)`: the newest post, or None when the call
      raises (on the network, or because no one is logged in). */
  function ListLatest(repo: Repo, faults: Faults, session: Option<string>): Option<seq<Post>>
  {
    if faults.list || session.None? then None
    else if repo.posts == [] then Some([])
    else Some([repo.posts[|repo.posts| - 1]])
  }

  /** `upload_blob` is taken to raise when it is given no data. */
  predicate UploadAccepted(faults: Faults, session: Option<string>, data: Option<Bytes>)
  {
    !faults.upload && session.Some? && data.Some?
  }

  predicate SendAccepted(faults: Faults, session: Option<string>)
  {
    !faults.send && session.Some?
  }

  class Server {
    var repo: Repo

    constructor (repo: Repo)
      ensures this.repo == repo
    {
      this.repo := repo;
    }
  }

  class Client {
    const server: Server
    const faults: Faults
    var session: Option<string>

    constructor (server: Server, faults: Faults)
      ensures this.server == server && this.faults == faults && session == None
    {
      this.server := server;
      this.faults := faults;
      session := None;
    }

    method Login(identifier: string, secret: string) returns (ok: bool)
      modifies this`session
      ensures ok == LoginAccepted(server.repo, faults, identifier, secret)
      ensures session == if ok then Some(identifier) else old(session)
    {
      ok := LoginAccepted(server.repo, faults, identifier, secret);
      if ok {
        session := Some(identifier);
      }
    }

    method ListLatestPosts() returns (records: Option<seq<Post>>)
      ensures records == ListLatest(server.repo, faults, session)
    {
      records := ListLatest(server.repo, faults, session);
    }

    method UploadBlob(data: Option<Bytes>) returns (ok: bool, blob: BlobRef)
      modifies server
      ensures ok == UploadAccepted(faults, session, data)
      ensures ok ==> blob == BlobRef(|old(server.repo.blobs)|) &&
                     server.repo == old(server.repo).(blobs := old(server.repo.blobs) + [data.value])
      ensures !ok ==> server.repo == old(server.repo)
    {
      ok := UploadAccepted(faults, session, data);
      blob := BlobRef(|server.repo.blobs|);
      if ok {
        server.repo := server.repo.(blobs := server.repo.blobs + [data.value]);
      }
    }

    method SendPost(text: string, embed: External) returns (ok: bool)
      modifies server
      ensures ok == SendAccepted(faults, session)
      ensures server.repo == if ok then old(server.repo).(posts := old(server.repo.posts) + [Post(text, embed)])
                             else old(server.repo)
    {
      ok := SendAccepted(faults, session);
      if ok {
        server.repo := server.repo.(posts := server.repo.posts + [Post(text, embed)]);
      }
    }
  }
}
