/** The records the front end passes around (types.ts), plus the Option and
    Result wrappers used for JavaScript's `null`/`undefined` and for thrown errors. */
module Types {

  datatype Option<+T> = None | Some(value: T)

  datatype Result<+R, +E> = Success(value: R) | Failure(error: E)

  /** One style preset of the catalog. */
  datatype StyleProfile = StyleProfile(
    id: string,
    name: string,
    name_zh: string,
    description: string,
    description_zh: string,
    previewColor: string,
    promptInstruction: string,
    icon: string)

  /** One generated poster, as kept in the gallery. */
  datatype GenerationResult = GenerationResult(
    id: string,
    styleId: string,
    imageUrl: string,
    prompt: string,
    timestamp: int)

  datatype Language = En | Zh

  datatype Theme = Dark | Light

  /** A browser File. `contents` stands for what FileReader.readAsDataURL
      delivers for it: the data URL text, or None when reading fails. */
  datatype File = File(name: string, mimeType: string, contents: Option<string>)
}
