/**
 * The room identifier of a WebSocket connection: the text after the last
 * '/' of the connection's URI path (WebSocketHandler.extractRoomId).
 *
 * The functions carry only the bound their callers need to be well formed;
 * what they mean is stated by the lemmas below them, so that the handler,
 * which names a room id in almost every contract, does not pay for it.
 */
module RoomPath {

  /** Java's `String.lastIndexOf(char)`: the last index holding `c`, or -1. */
  function LastIndexOf(s: string, c: char): (i: int)
    ensures -1 <= i < |s|
  {
    if |s| == 0 then -1
    else if s[|s| - 1] == c then |s| - 1
    else LastIndexOf(s[..|s| - 1], c)
  }

  /** `lastIndexOf` finds an occurrence, no later one exists, and -1 means none at all. */
  lemma {:induction false} LastIndexOfIsLast(s: string, c: char)
    ensures var i := LastIndexOf(s, c);
      && (i >= 0 ==> s[i] == c)
      && (forall k :: i < k < |s| ==> s[k] != c)
      && (i == -1 <==> c !in s)
  {
    if |s| > 0 && s[|s| - 1] != c {
      var t := s[..|s| - 1];
      LastIndexOfIsLast(t, c);
      assert forall k :: 0 <= k < |t| ==> t[k] == s[k];
      assert c in s ==> c in t by {
        if c in s {
          var k :| 0 <= k < |s| && s[k] == c;
          assert t[k] == c;
        }
      }
    }
  }

  /** `path.substring(path.lastIndexOf('/') + 1)`. */
  function ExtractRoomId(path: string): string
  {
    path[LastIndexOf(path, '/') + 1..]
  }

  /**
   * The room id is the last segment of the path: a suffix holding no '/',
   * the whole path when it has no '/', and otherwise preceded by a '/'.
   */
  lemma ExtractRoomIdIsLastSegment(path: string)
    ensures var roomId := ExtractRoomId(path);
      && |roomId| <= |path| && path[|path| - |roomId|..] == roomId
      && '/' !in roomId
      && ('/' !in path ==> roomId == path)
      && ('/' in path ==> |roomId| < |path| && path[|path| - |roomId| - 1] == '/')
  {
    LastIndexOfIsLast(path, '/');
    var i := LastIndexOf(path, '/');
    var roomId := path[i + 1..];
    forall k | 0 <= k < |roomId| ensures roomId[k] != '/' {
      assert roomId[k] == path[i + 1 + k];
    }
  }

  /** A path built as `prefix + "/" + id` addresses room `id` whatever the prefix holds. */
  lemma {:induction false} ExtractRoomIdOfJoinedPath(prefix: string, id: string)
    requires '/' !in id
    ensures ExtractRoomId(prefix + "/" + id) == id
  {
    var path := prefix + "/" + id;
    ExtractRoomIdIsLastSegment(path);
    assert path[|prefix|] == '/';
    assert path[|path| - |id|..] == id;
  }
}
