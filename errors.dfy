/** The two errors the render can throw, and the messages it throws them with. */
module Errors {

  const ArtworkPrefix := "Failed to load artwork: "

  datatype RenderError =
    | MissingDirection
    | ArtworkLoadFailed(cause: string)
  {
    /** The `message` of the thrown Error. */
    function Message(): (m: string)
      ensures ArtworkLoadFailed? ==> |ArtworkPrefix| <= |m| && m[..|ArtworkPrefix|] == ArtworkPrefix
    {
      match this
      case MissingDirection => "Direction is required for linear gradients"
      case ArtworkLoadFailed(cause) => ArtworkPrefix + cause
    }
  }

  /** The first letter of a message tells the two kinds apart. */
  lemma MessageHead(e: RenderError)
    ensures |e.Message()| > 0
    ensures e.Message()[0] == if e.ArtworkLoadFailed? then 'F' else 'D'
  {
  }

  /** The message determines the error: the artwork cause can be read back out of it. */
  lemma MessageDeterminesError(e1: RenderError, e2: RenderError)
    requires e1.Message() == e2.Message()
    ensures e1 == e2
  {
    MessageHead(e1);
    MessageHead(e2);
    if e1.ArtworkLoadFailed? && e2.ArtworkLoadFailed? {
      var m := e1.Message();
      assert e1.cause == m[|ArtworkPrefix|..] == e2.cause;
    }
  }
}
