/**
 * The external collaborators the forms call, as oracle results and as a log of
 * the calls made. An `error` field the service leaves out is the empty string:
 * the forms only ever test it for truthiness or read it as a message.
 */
module Services {

  /** What `checkNameUniqueness(name)` answers. */
  datatype NameCheck =
    | CheckFailed        // { success: false }
    | NameIsUnique       // { success: true, data: { isUnique: true } }
    | NameIsDuplicate    // { success: true, data: { isUnique: false } }

  /** What `uploadToImgBB(blob, filename)` answers. */
  datatype UploadResult = Uploaded(url: string) | UploadFailed(error: string)

  /** What `addProduct({ name, category, image_url })` answers. */
  datatype AddResult = AddSucceeded | AddFailed(error: string)

  /** One request sent to a collaborator, in the order the forms send them. */
  datatype ServiceCall =
    | CheckName(name: string)
    | UploadImage(filename: string)
    | AddProduct(name: string, category: string, imageUrl: string)

  /** JavaScript's `e || fallback` on a string. */
  function OrElse(e: string, fallback: string): string
  {
    if e == "" then fallback else e
  }
}
