/** The catalogue's records (types.ts). The core only reads them. */
module Types {

  /** `T | null` / an optional attribute or stored value. */
  datatype Option<+T> = None | Some(value: T) {
    function GetOr(default: T): T {
      match this
      case Some(v) => v
      case None => default
    }
  }

  datatype Channel = Channel(id: string, name: string, avatar: string, subscribers: int)

  datatype Comment = Comment(
    id: string,
    author: Channel,
    text: string,
    likes: int,
    replies: seq<Comment>,
    timestamp: string)

  datatype Video = Video(
    id: string,
    title: string,
    thumbnail: string,
    videoUrl: string,
    duration: string,
    channel: Channel,
    views: string,
    uploadedAt: string,
    description: string,
    likes: int,
    dislikes: int,
    comments: seq<Comment>,
    isShort: bool,
    category: string)

  /** `type Page = 'home' | 'shorts' | 'channel'` */
  datatype Page = Home | Shorts | ChannelPage
}
