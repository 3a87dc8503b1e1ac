/**
 * The client-side API types the form consumes: the translation modes and what
 * a call of `translateText` resolves to, as the form sees it.
 */
module TranslationApi {
  import opened Wrappers

  /** `TranslationMode`: `"emoji-combo"`, `"emojify"`, `"xiaohongshu"`. */
  datatype Mode = EmojiCombo | Emojify | Xiaohongshu

  /** The result of `translateText` as the form branches on it:
      - `Translated`: an object with `success: true` and its `translatedText`;
      - `Failed`: an object with `success: false` and its `error` message;
      - `Streamed`: a readable stream, given as the decoded chunks it delivers
        in arrival order; `thrown` is the message of an error raised while it
        is read (after those chunks), if any. */
  datatype ApiReply =
    | Translated(text: string)
    | Failed(error: string)
    | Streamed(chunks: seq<string>, thrown: Option<string>)
}
