/** The fate of requests. */
module Network {
  /** A request is carried out and answered, it never arrives, or it is carried out and the answer is lost. */
  datatype Net = Delivered | Lost | Unheard

  /** The fates of coming requests; when they are used up, every request is answered. */
  function First(fates: seq<Net>): Net {
    if fates == [] then Delivered else fates[0]
  }

  function Later(fates: seq<Net>): seq<Net> {
    if fates == [] then [] else fates[1..]
  }
}
