/**
 * The play queue: the `Media` object of jellyfin_mpv_shim/media.py:188-213. It holds the
 * item ids of the queue, its position in it, and the `Video` of the current item.
 * `is_local_domain(client)` is given as a boolean, and the server's `get_item` as a
 * function from item id to item record.
 */
module Queue {
  import opened Wrappers
  import opened Playback

  class Media {
    const queue: seq<string>
    const config: Config
    /** The server's `get_item`. */
    const getItem: string -> Item
    /** `seq`: the position of the current item in the queue. */
    const position: nat
    const userId: Option<string>
    const video: Video
    const isTv: bool
    const isLocal: bool
    const hasNext: bool
    const hasPrev: bool

    /** The position is inside the queue, the navigation flags agree with it, and the
        `Video` plays the item at that position from its first media source. */
    ghost predicate Valid()
      reads this
    {
      && position < |queue|
      && (hasNext <==> position < |queue| - 1)
      && (hasPrev <==> position > 0)
      && video.itemId == queue[position] && video.item == getItem(queue[position])
      && video.srcSeq == 0 && video.isLocal == isLocal
    }

    /** `Media.__init__` (media.py:189-199): builds the `Video` of the item at `position`. */
    constructor (config: Config, getItem: string -> Item, isLocal: bool, queue: seq<string>,
                 position: nat, userId: Option<string>, aid: Option<int>, sid: Option<int>)
      requires position < |queue|
      ensures Valid()
      ensures this.queue == queue && this.position == position && this.userId == userId
      ensures this.config == config && this.getItem == getItem && this.isLocal == isLocal
      ensures hasNext <==> position < |queue| - 1
      ensures hasPrev <==> position > 0
      ensures fresh(video) && video.Valid()
      ensures video.itemId == queue[position] && video.item == getItem(queue[position])
      ensures video.aid == aid && video.sid == sid && video.srcSeq == 0 && video.isLocal == isLocal
      ensures isTv == (getItem(queue[position]).kind == Some("Episode"))
    {
      this.queue := queue;
      this.config := config;
      this.getItem := getItem;
      this.position := position;
      this.userId := userId;
      var v := new Video(queue[position], getItem(queue[position]), config, isLocal, aid, sid, 0);
      video := v;
      isTv := v.isTv;
      this.isLocal := isLocal;
      hasNext := position < |queue| - 1;
      hasPrev := position > 0;
    }

    /** `get_next` (media.py:201-203): the queue one item further on, with no track selection. */
    method GetNext() returns (m: Media?)
      requires Valid()
      ensures hasNext ==> m != null && fresh(m) && m.Valid() && m.hasPrev
      ensures hasNext ==> m.queue == queue && m.position == position + 1 && m.userId == userId
      ensures hasNext ==> m.config == config && m.getItem == getItem && m.isLocal == isLocal
      ensures hasNext ==> m.video.itemId == queue[position + 1]
      ensures hasNext ==> m.video.aid.None? && m.video.sid.None?
      ensures !hasNext ==> m == null
    {
      m := null;
      if hasNext {
        m := new Media(config, getItem, isLocal, queue, position + 1, userId, None, None);
      }
    }

    /** `get_prev` (media.py:205-207): the queue one item back, with no track selection. */
    method GetPrev() returns (m: Media?)
      requires Valid()
      ensures hasPrev ==> m != null && fresh(m) && m.Valid() && m.hasNext
      ensures hasPrev ==> m.queue == queue && m.position == position - 1 && m.userId == userId
      ensures hasPrev ==> m.config == config && m.getItem == getItem && m.isLocal == isLocal
      ensures hasPrev ==> m.video.itemId == queue[position - 1]
      ensures hasPrev ==> m.video.aid.None? && m.video.sid.None?
      ensures !hasPrev ==> m == null
    {
      m := null;
      if hasPrev {
        m := new Media(config, getItem, isLocal, queue, position - 1, userId, None, None);
      }
    }

    /** `get_from_key` (media.py:209-213): the queue positioned at the first occurrence of
        the item id, or `None` when the id is not queued. */
    method GetFromKey(itemId: string) returns (m: Media?)
      ensures m == null <==> itemId !in queue
      ensures m != null ==> fresh(m) && m.Valid() && m.queue == queue && m.userId == userId
      ensures m != null ==> m.config == config && m.getItem == getItem && m.isLocal == isLocal
      ensures m != null ==> m.video.itemId == itemId && m.video.aid.None? && m.video.sid.None?
      ensures m != null ==> queue[m.position] == itemId && forall j :: 0 <= j < m.position ==> queue[j] != itemId
    {
      for i := 0 to |queue|
        invariant forall j :: 0 <= j < i ==> queue[j] != itemId
      {
        if queue[i] == itemId {
          m := new Media(config, getItem, isLocal, queue, i, userId, None, None);
          return;
        }
      }
      m := null;
    }
  }
}
