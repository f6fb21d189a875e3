/**
 * The browser's multipart FormData as the admin forms use it: text and file
 * entries under string keys, where `set` replaces any entry with the same key.
 */
module FormDataModel {

  /** A file the admin picked in the file input; its contents are not modelled. */
  datatype File = File(fileName: string)

  datatype FormValue = Text(text: string) | Blob(file: File)

  class FormData {
    var entries: map<string, FormValue>

    constructor ()
      ensures entries == map[]
    {
      entries := map[];
    }

    /** `formData.set(key, value)`: this key now holds exactly this value, no other key changes. */
    method Set(key: string, value: FormValue)
      modifies this
      ensures entries == old(entries)[key := value]
    {
      entries := entries[key := value];
    }
  }
}
