/** `ProductDetailViewModel`: one product's page, with five separate pieces of
    screen state — the detail itself, the download, the comment dialog, the
    rating dialog and the purchase — each changed only by its own actions. */
module ProductDetailViewModel {
  import opened Common
  import opened Text
  import opened ProductDetailRepository

  datatype ProductDetailUiState = ProductDetailUiState(loading: bool, error: Option<string>, detail: Option<ProductDetailResult>)

  /** The downloaded file is represented by its path. */
  datatype DownloadState = DownloadState(downloading: bool, lastDownloadedFile: Option<string>, error: Option<string>)

  datatype CommentUiState = CommentUiState(showDialog: bool, text: string, sending: bool, error: Option<string>, success: Option<string>)

  datatype RatingUiState = RatingUiState(showDialog: bool, selectedRating: int, sending: bool, error: Option<string>, success: Option<string>)

  datatype PurchaseUiState = PurchaseUiState(buying: bool, error: Option<string>, success: Option<string>)

  const InitialUiState: ProductDetailUiState := ProductDetailUiState(true, None, None)
  const InitialDownload: DownloadState := DownloadState(false, None, None)
  const InitialPurchase: PurchaseUiState := PurchaseUiState(false, None, None)

  /** `CommentUiState(showDialog = ...)`: every other field at its default. */
  function FreshComment(showDialog: bool): CommentUiState {
    CommentUiState(showDialog, "", false, None, None)
  }

  /** `RatingUiState(showDialog = ...)`: no rating selected (0). */
  function FreshRating(showDialog: bool): RatingUiState {
    RatingUiState(showDialog, 0, false, None, None)
  }

  const UnknownError: string := "Error desconocido"
  const DownloadFailed: string := "Error al descargar el archivo."
  const CommentEmpty: string := "El comentario no puede estar vacío."
  const CommentSent: string := "Comentario enviado correctamente."
  const CommentFailed: string := "Error al enviar el comentario."
  const RatingOutOfRange: string := "Selecciona una calificación entre 1 y 5 estrellas."
  const RatingSent: string := "Calificación registrada correctamente."
  const RatingFailed: string := "Error al registrar la calificación."
  const PurchaseDone: string := "Compra realizada correctamente."
  const PurchaseFailed: string := "Error al realizar la compra."

  /** `coerceIn(1, 5)` on a selected star count. */
  function ClampRating(n: int): (r: int)
    ensures 1 <= r <= 5
    ensures 1 <= n <= 5 ==> r == n
    ensures n < 1 ==> r == 1
    ensures n > 5 ==> r == 5
  {
    CoerceIn(n, 1, 5)
  }

  /** The comment `sendComment` sends, or why it refuses: the text trimmed,
      refused when nothing is left. */
  function CommentToSend(text: string): (r: Result<string>)
    ensures r.Ok? <==> !IsBlank(text)
    ensures r.Err? ==> r == Err(Some(CommentEmpty))
    ensures r.Ok? ==> r.value == Trim(text) && r.value != []
  {
    var t := Trim(text);
    TrimEmptyIffBlank(text);
    if t == [] then Err(Some(CommentEmpty)) else Ok(t)
  }

  /** Sending the comment again as it was sent changes nothing: the text sent
      is already trimmed. */
  lemma CommentToSendIdempotent(text: string)
    requires !IsBlank(text)
    ensures CommentToSend(CommentToSend(text).value) == CommentToSend(text)
  {
    var t := CommentToSend(text).value;
    TrimKeeps(t);
    assert !IsBlank(t) by { assert !IsWhitespace(t[0]); }
  }

  /** The rating `sendRating` sends, or why it refuses. */
  function RatingToSend(rating: int): (r: Result<int>)
    ensures r.Ok? <==> 1 <= rating <= 5
    ensures r.Ok? ==> r.value == rating
    ensures r.Err? ==> r == Err(Some(RatingOutOfRange))
  {
    if 1 <= rating <= 5 then Ok(rating) else Err(Some(RatingOutOfRange))
  }

  /** A rating chosen through `onRatingSelected` is always accepted; only a
      dialog where nothing was chosen (0) refuses. */
  lemma SelectedRatingAccepted(n: int)
    ensures RatingToSend(ClampRating(n)) == Ok(ClampRating(n))
    ensures RatingToSend(0).Err?
  {
  }

  class ProductDetailViewModel {
    const productId: int
    var uiState: ProductDetailUiState
    var downloadState: DownloadState
    var commentUiState: CommentUiState
    var ratingUiState: RatingUiState
    var purchaseUiState: PurchaseUiState

    /** The selected rating is either none (0) or a star count from 1 to 5. */
    predicate Valid()
      reads this
    {
      ratingUiState.selectedRating == 0 || 1 <= ratingUiState.selectedRating <= 5
    }

    /** The view model for the route's `productId`; `init` starts `load`,
        whose first step leaves the initial state as it is. */
    constructor (productId: int)
      ensures this.productId == productId
      ensures uiState == InitialUiState && downloadState == InitialDownload
      ensures commentUiState == FreshComment(false) && ratingUiState == FreshRating(false)
      ensures purchaseUiState == InitialPurchase
      ensures Valid()
    {
      this.productId := productId;
      uiState := InitialUiState.(loading := true, error := None);
      downloadState := InitialDownload;
      commentUiState := FreshComment(false);
      ratingUiState := FreshRating(false);
      purchaseUiState := InitialPurchase;
    }

    /** The start of `load`: the detail of this product is asked for; what is
        shown stays until the answer. */
    method Load() returns (id: int)
      modifies this`uiState
      ensures uiState == old(uiState).(loading := true, error := None)
      ensures id == productId
    {
      uiState := uiState.(loading := true, error := None);
      id := productId;
    }

    /** The end of `load`: the state is rebuilt from scratch, so a failure also
        drops the detail shown before. */
    method CompleteLoad(r: Result<ProductDetailResult>)
      modifies this`uiState
      ensures r.Ok? ==> uiState == ProductDetailUiState(false, None, Some(r.value))
      ensures r.Err? ==> uiState == ProductDetailUiState(false, Some(r.message.GetOr(UnknownError)), None)
    {
      if r.Ok? {
        uiState := ProductDetailUiState(false, None, Some(r.value));
      } else {
        uiState := ProductDetailUiState(false, Some(r.message.GetOr(UnknownError)), None);
      }
    }

    /** The start of `downloadProduct`: the previous file and error are
        forgotten. */
    method DownloadProduct() returns (id: int)
      modifies this`downloadState
      ensures downloadState == DownloadState(true, None, None)
      ensures id == productId
    {
      downloadState := downloadState.(downloading := true, error := None, lastDownloadedFile := None);
      id := productId;
    }

    /** The end of `downloadProduct`. */
    method CompleteDownload(r: Result<string>)
      modifies this`downloadState
      ensures r.Ok? ==> downloadState == old(downloadState).(downloading := false, lastDownloadedFile := Some(r.value), error := None)
      ensures r.Err? ==> downloadState == old(downloadState).(downloading := false, error := Some(r.message.GetOr(DownloadFailed)))
    {
      if r.Ok? {
        downloadState := downloadState.(downloading := false, lastDownloadedFile := Some(r.value), error := None);
      } else {
        downloadState := downloadState.(downloading := false, error := Some(r.message.GetOr(DownloadFailed)));
      }
    }

    /** `openCommentDialog`: a fresh dialog, earlier text and messages gone. */
    method OpenCommentDialog()
      modifies this`commentUiState
      ensures commentUiState == FreshComment(true)
    {
      commentUiState := FreshComment(true);
    }

    /** `dismissCommentDialog`: closed and reset. */
    method DismissCommentDialog()
      modifies this`commentUiState
      ensures commentUiState == FreshComment(false)
    {
      commentUiState := FreshComment(false);
    }

    /** `onCommentTextChange`: the text as typed; error and success cleared. */
    method OnCommentTextChange(newText: string)
      modifies this`commentUiState
      ensures commentUiState == old(commentUiState).(text := newText, error := None, success := None)
    {
      commentUiState := commentUiState.(text := newText, error := None, success := None);
    }

    /** `sendComment` up to the call: an empty trimmed text is refused on the
        spot; otherwise the trimmed text goes out. */
    method SendComment() returns (sent: Option<CommentRequestDto>)
      modifies this`commentUiState
      ensures CommentToSend(old(commentUiState).text).Err?
              ==> sent.None? && commentUiState == old(commentUiState).(error := Some(CommentEmpty))
      ensures CommentToSend(old(commentUiState).text).Ok?
              ==> sent == Some(CommentBody(CommentToSend(old(commentUiState).text).value))
                  && commentUiState == old(commentUiState).(sending := true, error := None, success := None)
    {
      var c := CommentToSend(commentUiState.text);
      if c.Err? {
        commentUiState := commentUiState.(error := Some(CommentEmpty));
        sent := None;
      } else {
        commentUiState := commentUiState.(sending := true, error := None, success := None);
        sent := Some(CommentBody(c.value));
      }
    }

    /** The end of `sendComment`: success reloads the detail (its start applied
        at once), clears the text and confirms; failure keeps the text. */
    method CompleteSendComment(r: Result<()>) returns (reload: Option<int>)
      modifies this`commentUiState, this`uiState
      ensures r.Ok? ==> uiState == old(uiState).(loading := true, error := None) && reload == Some(productId)
                        && commentUiState == old(commentUiState).(sending := false, success := Some(CommentSent), text := "")
      ensures r.Err? ==> uiState == old(uiState) && reload.None?
                         && commentUiState == old(commentUiState).(sending := false, error := Some(r.message.GetOr(CommentFailed)))
    {
      if r.Ok? {
        var id := Load();
        reload := Some(id);
        commentUiState := commentUiState.(sending := false, success := Some(CommentSent), text := "");
      } else {
        commentUiState := commentUiState.(sending := false, error := Some(r.message.GetOr(CommentFailed)));
        reload := None;
      }
    }

    /** `openRatingDialog`: a fresh dialog with no rating selected. */
    method OpenRatingDialog()
      modifies this`ratingUiState
      ensures ratingUiState == FreshRating(true)
      ensures Valid()
    {
      ratingUiState := FreshRating(true);
    }

    /** `dismissRatingDialog`. */
    method DismissRatingDialog()
      modifies this`ratingUiState
      ensures ratingUiState == FreshRating(false)
      ensures Valid()
    {
      ratingUiState := FreshRating(false);
    }

    /** `onRatingSelected`: the stars clamped to 1..5; error and success cleared. */
    method OnRatingSelected(newRating: int)
      modifies this`ratingUiState
      ensures ratingUiState == old(ratingUiState).(selectedRating := ClampRating(newRating), error := None, success := None)
      ensures Valid()
    {
      ratingUiState := ratingUiState.(selectedRating := ClampRating(newRating), error := None, success := None);
    }

    /** `sendRating` up to the call: a rating outside 1..5 (in practice: none
        selected) is refused; otherwise it goes out. */
    method SendRating() returns (sent: Option<RatingRequestDto>)
      requires Valid()
      modifies this`ratingUiState
      ensures old(ratingUiState).selectedRating == 0
              ==> sent.None? && ratingUiState == old(ratingUiState).(error := Some(RatingOutOfRange))
      ensures old(ratingUiState).selectedRating != 0
              ==> sent == Some(RatingBody(old(ratingUiState).selectedRating))
                  && ratingUiState == old(ratingUiState).(sending := true, error := None, success := None)
      ensures Valid()
    {
      var v := RatingToSend(ratingUiState.selectedRating);
      if v.Err? {
        ratingUiState := ratingUiState.(error := Some(RatingOutOfRange));
        sent := None;
      } else {
        ratingUiState := ratingUiState.(sending := true, error := None, success := None);
        sent := Some(RatingBody(v.value));
      }
    }

    /** The end of `sendRating`: success reloads the detail (for the new
        average) and confirms; failure shows the message. */
    method CompleteSendRating(r: Result<()>) returns (reload: Option<int>)
      requires Valid()
      modifies this`ratingUiState, this`uiState
      ensures r.Ok? ==> uiState == old(uiState).(loading := true, error := None) && reload == Some(productId)
                        && ratingUiState == old(ratingUiState).(sending := false, success := Some(RatingSent))
      ensures r.Err? ==> uiState == old(uiState) && reload.None?
                         && ratingUiState == old(ratingUiState).(sending := false, error := Some(r.message.GetOr(RatingFailed)))
      ensures Valid()
    {
      if r.Ok? {
        var id := Load();
        reload := Some(id);
        ratingUiState := ratingUiState.(sending := false, success := Some(RatingSent));
      } else {
        ratingUiState := ratingUiState.(sending := false, error := Some(r.message.GetOr(RatingFailed)));
        reload := None;
      }
    }

    /** The start of `buyProduct`. */
    method BuyProduct() returns (id: int)
      modifies this`purchaseUiState
      ensures purchaseUiState == old(purchaseUiState).(buying := true, error := None, success := None)
      ensures id == productId
    {
      purchaseUiState := purchaseUiState.(buying := true, error := None, success := None);
      id := productId;
    }

    /** The end of `buyProduct`: the fresh detail the purchase returned replaces
        the one shown (the load status is left alone); a failure touches only
        the purchase state. */
    method CompleteBuy(r: Result<ProductDetailResult>)
      modifies this`purchaseUiState, this`uiState
      ensures r.Ok? ==> uiState == old(uiState).(detail := Some(r.value), error := None)
                        && purchaseUiState == old(purchaseUiState).(buying := false, success := Some(PurchaseDone))
      ensures r.Err? ==> uiState == old(uiState)
                         && purchaseUiState == old(purchaseUiState).(buying := false, error := Some(r.message.GetOr(PurchaseFailed)))
    {
      if r.Ok? {
        uiState := uiState.(detail := Some(r.value), error := None);
        purchaseUiState := purchaseUiState.(buying := false, success := Some(PurchaseDone));
      } else {
        purchaseUiState := purchaseUiState.(buying := false, error := Some(r.message.GetOr(PurchaseFailed)));
      }
    }
  }
}
