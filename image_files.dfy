/** The gate every selected image goes through before a form keeps it: the
    identity documents of step 3 and the payment proof. */
module ImageFiles {

  import opened Types
  import opened EcmaScript

  /** 5 MiB. */
  const MAX_IMAGE_BYTES := 5 * 1024 * 1024

  const MSG_TOO_LARGE := "El archivo no debe superar 5MB"
  const MSG_NOT_IMAGE := "Solo se permiten imágenes"

  /** The message a selected file is refused with, if any: size first, then type. */
  function ImageFileError(f: File): (e: Option<string>)
    ensures e.None? <==> f.size <= MAX_IMAGE_BYTES && StartsWith(f.mimeType, "image/")
    ensures e == Some(MSG_TOO_LARGE) <==> f.size > MAX_IMAGE_BYTES
    ensures e == Some(MSG_NOT_IMAGE) <==> f.size <= MAX_IMAGE_BYTES && !StartsWith(f.mimeType, "image/")
  {
    if f.size > MAX_IMAGE_BYTES then Some(MSG_TOO_LARGE)
    else if !StartsWith(f.mimeType, "image/") then Some(MSG_NOT_IMAGE)
    else None
  }

  /** Exactly 5 MiB passes; one byte more is refused, whatever the type. */
  lemma SizeBoundary()
    ensures ImageFileError(File("a.png", 5242880, "image/png")).None?
    ensures ImageFileError(File("a.pdf", 5242881, "application/pdf")) == Some(MSG_TOO_LARGE)
  {
    assert "image/png"[..|"image/"|] == "image/";
  }
}
