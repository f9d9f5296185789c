/** template/util.go: building prefixed lookup keys, and the error plumbing of
    decrypting a stored secret.

    `path.Join` and the three decryption stages (opening the OpenPGP message
    read through a lazy base64 decoder, opening a gzip reader on its body, and
    reading that reader to the end) are library calls; they are parameters
    here, so every property below holds whatever they do. */
module TemplateUtil {
  import opened Results

  /** `appendPrefix(prefix, keys)`: every key joined onto the prefix, one
      result per key, in the keys' order. */
  function AppendPrefix(join: (string, string) -> string, prefix: string, keys: seq<string>): (r: seq<string>)
    ensures |r| == |keys|
    ensures forall i :: 0 <= i < |keys| ==> r[i] == join(prefix, keys[i])
  {
    if keys == [] then [] else AppendPrefix(join, prefix, keys[..|keys| - 1]) + [join(prefix, keys[|keys| - 1])]
  }

  /** Prefixing a concatenation of key lists prefixes each list in place, so
      relative order and duplicates carry over unchanged. */
  lemma AppendPrefixConcat(join: (string, string) -> string, prefix: string, a: seq<string>, b: seq<string>)
    ensures AppendPrefix(join, prefix, a + b) == AppendPrefix(join, prefix, a) + AppendPrefix(join, prefix, b)
  {
  }

  /** Equal keys give equal results, wherever they sit: no de-duplication. */
  lemma AppendPrefixKeepsDuplicates(join: (string, string) -> string, prefix: string, keys: seq<string>, i: nat, j: nat)
    requires i < |keys| && j < |keys| && keys[i] == keys[j]
    ensures AppendPrefix(join, prefix, keys)[i] == AppendPrefix(join, prefix, keys)[j]
  {
  }

  /** What `decrypt` returns: a text and the error, if there was one. */
  datatype Decrypted<E> = Decrypted(text: string, error: Option<E>)

  /** `decrypt(data, entityList)`: open the message, open a gzip reader on its
      body, read it all. The first stage to fail decides the error, and the
      text is then `data` as given; only when all three succeed is the text
      the decompressed body. A bad base64 encoding has no stage of its own:
      the decoder is lazy, so its error is whatever the stage reading through
      it reports. */
  function Decrypt<M, G, E>(data: string,
                            readMessage: string -> Result<M, E>,
                            gzipReader: M -> Result<G, E>,
                            readAll: G -> Result<string, E>): (r: Decrypted<E>)
    ensures r.error.Some? ==> r.text == data
    ensures readMessage(data).Failure? ==> r == Decrypted(data, Some(readMessage(data).error))
    ensures readMessage(data).Success? && gzipReader(readMessage(data).value).Failure?
        ==> r == Decrypted(data, Some(gzipReader(readMessage(data).value).error))
    ensures readMessage(data).Success? && gzipReader(readMessage(data).value).Success?
        && readAll(gzipReader(readMessage(data).value).value).Failure?
        ==> r == Decrypted(data, Some(readAll(gzipReader(readMessage(data).value).value).error))
    ensures r.error.None? <==>
      && readMessage(data).Success?
      && gzipReader(readMessage(data).value).Success?
      && readAll(gzipReader(readMessage(data).value).value).Success?
    ensures r.error.None? ==> r.text == readAll(gzipReader(readMessage(data).value).value).value
  {
    match readMessage(data)
    case Failure(e) => Decrypted(data, Some(e))
    case Success(md) =>
      match gzipReader(md)
      case Failure(e) => Decrypted(data, Some(e))
      case Success(gz) =>
        match readAll(gz)
        case Failure(e) => Decrypted(data, Some(e))
        case Success(body) => Decrypted(body, None)
  }

  /** `Decrypt` undoes the sealing it targets. `compress` stands for gzip and
      `seal` for OpenPGP encryption to the keyring followed by base64; when
      the stages invert them, every sealed plaintext comes back exactly. */
  lemma DecryptInvertsSeal<M(!new), G, E>(plaintext: string,
                                    compress: string -> M,
                                    seal: M -> string,
                                    readMessage: string -> Result<M, E>,
                                    gzipReader: M -> Result<G, E>,
                                    readAll: G -> Result<string, E>)
    requires forall m :: readMessage(seal(m)) == Success(m)
    requires forall s :: gzipReader(compress(s)).Success? && readAll(gzipReader(compress(s)).value) == Success(s)
    ensures Decrypt(seal(compress(plaintext)), readMessage, gzipReader, readAll) == Decrypted(plaintext, None)
  {
    var m := compress(plaintext);
    assert readMessage(seal(m)) == Success(m);
    assert readAll(gzipReader(m).value) == Success(plaintext);
  }

  /** A stage that fails ends the pipeline: the stages after it are never
      consulted, so swapping them for any others changes nothing. In
      particular a keyring that cannot open the message gives the same
      untouched ciphertext whatever the gzip and read stages would do. */
  lemma FailedStageEndsPipeline<M, G, E>(data: string,
                                         readMessage: string -> Result<M, E>,
                                         gzipReader: M -> Result<G, E>, gzipReader': M -> Result<G, E>,
                                         readAll: G -> Result<string, E>, readAll': G -> Result<string, E>)
    ensures readMessage(data).Failure?
        ==> Decrypt(data, readMessage, gzipReader, readAll) == Decrypt(data, readMessage, gzipReader', readAll')
    ensures readMessage(data).Success? && gzipReader(readMessage(data).value).Failure?
        ==> Decrypt(data, readMessage, gzipReader, readAll) == Decrypt(data, readMessage, gzipReader, readAll')
  {
  }
}
