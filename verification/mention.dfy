/**
 * `Mention`: a user that can be mentioned, with a fixed username, an optional
 * display name and an optional avatar; and its `Builder`.
 */
module Mentions {
  import opened Wrappers

  /** A Java `int`. */
  newtype int32 = x: int | -0x8000_0000 <= x < 0x8000_0000

  /** An `android.net.Uri`, known only by its identity. */
  datatype Uri = Uri(id: nat)

  /** A `java.io.File`, known only by its identity. */
  datatype File = File(id: nat)

  /** What the single `Object avatar` field can hold, besides `null`. */
  datatype Avatar =
    | Drawable(res: int32)  // a boxed drawable resource id
    | Url(url: string)
    | UriAvatar(uri: Uri)
    | FileAvatar(file: File)

  class Mention {
    const username: string
    var displayname: Option<string>
    var avatar: Option<Avatar>

    constructor (username: string)
      ensures this.username == username && displayname == None && avatar == None
    {
      this.username := username;
      displayname := None;
      avatar := None;
    }

    method SetDisplayname(displayname: Option<string>)
      modifies this`displayname
      ensures this.displayname == displayname
    {
      this.displayname := displayname;
    }

    /** The private `setAvatar(Object)`. */
    method SetAvatar(avatar: Option<Avatar>)
      modifies this`avatar
      ensures this.avatar == avatar
    {
      this.avatar := avatar;
    }

    method SetAvatarDrawable(res: int32)
      modifies this`avatar
      ensures avatar == Some(Drawable(res))
    {
      avatar := Some(Drawable(res));
    }

    /** `setAvatarURL(String)`: a `null` URL clears the avatar. */
    method SetAvatarUrl(url: Option<string>)
      modifies this`avatar
      ensures url.None? ==> avatar.None?
      ensures url.Some? ==> avatar == Some(Url(url.value))
    {
      match url {
        case None => avatar := None;
        case Some(u) => avatar := Some(Url(u));
      }
    }

    /** `setAvatarUri(Uri)`. */
    method SetAvatarUri(uri: Option<Uri>)
      modifies this`avatar
      ensures uri.None? ==> avatar.None?
      ensures uri.Some? ==> avatar == Some(UriAvatar(uri.value))
    {
      match uri {
        case None => avatar := None;
        case Some(u) => avatar := Some(UriAvatar(u));
      }
    }

    /** `setAvatarUri(File)`, the overload taking a file. */
    method SetAvatarFile(file: Option<File>)
      modifies this`avatar
      ensures file.None? ==> avatar.None?
      ensures file.Some? ==> avatar == Some(FileAvatar(file.value))
    {
      match file {
        case None => avatar := None;
        case Some(f) => avatar := Some(FileAvatar(f));
      }
    }
  }

  /** `Mention.Builder`: every setter changes the one wrapped mention and returns the builder itself. */
  class Builder {
    const mention: Mention

    constructor (username: string)
      ensures fresh(mention)
      ensures mention.username == username && mention.displayname == None && mention.avatar == None
    {
      mention := new Mention(username);
    }

    method SetDisplayname(displayname: Option<string>) returns (b: Builder)
      modifies mention`displayname
      ensures b == this && mention.displayname == displayname
    {
      mention.SetDisplayname(displayname);
      b := this;
    }

    method SetAvatarDrawable(res: int32) returns (b: Builder)
      modifies mention`avatar
      ensures b == this && mention.avatar == Some(Drawable(res))
    {
      mention.SetAvatarDrawable(res);
      b := this;
    }

    method SetAvatarUrl(url: Option<string>) returns (b: Builder)
      modifies mention`avatar
      ensures b == this
      ensures url.None? ==> mention.avatar.None?
      ensures url.Some? ==> mention.avatar == Some(Url(url.value))
    {
      mention.SetAvatarUrl(url);
      b := this;
    }

    method SetAvatarUri(uri: Option<Uri>) returns (b: Builder)
      modifies mention`avatar
      ensures b == this
      ensures uri.None? ==> mention.avatar.None?
      ensures uri.Some? ==> mention.avatar == Some(UriAvatar(uri.value))
    {
      mention.SetAvatarUri(uri);
      b := this;
    }

    method SetAvatarFile(file: Option<File>) returns (b: Builder)
      modifies mention`avatar
      ensures b == this
      ensures file.None? ==> mention.avatar.None?
      ensures file.Some? ==> mention.avatar == Some(FileAvatar(file.value))
    {
      mention.SetAvatarFile(file);
      b := this;
    }

    /** `build()` hands out the wrapped mention itself, not a copy. */
    method Build() returns (m: Mention)
      ensures m == mention
    {
      m := mention;
    }
  }

  /**
   * A builder chain: the built mention has the builder's username, the display
   * name set on the way, and the avatar of the last avatar setter called.
   */
  method BuildMention(username: string, displayname: string, url: string, res: int32) returns (m: Mention)
    ensures fresh(m)
    ensures m.username == username && m.displayname == Some(displayname) && m.avatar == Some(Drawable(res))
  {
    var b := new Builder(username);
    b := b.SetAvatarUrl(Some(url));
    b := b.SetDisplayname(Some(displayname));
    b := b.SetAvatarDrawable(res);
    m := b.Build();
  }
}
