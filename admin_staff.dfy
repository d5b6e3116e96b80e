/**
 * The staff administration page: the list shows each member's Telegram chat id masked
 * unless master mode is on, master mode is entered with a fixed password, and the edit
 * dialog refuses to save a draft without a name.
 */
module AdminStaff {
  import opened Wrappers
  import opened Text
  import opened Toasts

  const MasterPassword := "master1234"
  const Bullets := "••••••"

  /** The draft the edit dialog holds (a `Partial<Staff>`): every field may be missing. */
  datatype StaffDraft = StaffDraft(
    id: Option<string>,
    name: Option<string>,
    email: Option<string>,
    phone: Option<string>,
    telegram_token: Option<string>,
    telegram_chat_id: Option<string>,
    role_type: Option<string>)

  /** `EMPTY_STAFF`: every text field empty, the role "영업", and no id (a new member). */
  const EmptyStaff := StaffDraft(None, Some(""), Some(""), Some(""), Some(""), Some(""), Some("영업"))

  /**
   * `maskValue`: "-" for a missing or empty value, otherwise six bullets followed by the
   * last four characters (the whole value when it is shorter).
   */
  function MaskValue(v: Option<string>): (r: string)
    ensures !Present(v) ==> r == "-"
    ensures Present(v) ==> |r| == 6 + Min(4, |v.value|) && r[..6] == Bullets
    ensures Present(v) ==> r[6..] == v.value[|v.value| - Min(4, |v.value|)..]
  {
    if Present(v) then Bullets + TakeLast(v.value, 4) else "-"
  }

  /**
   * The mask hides everything but the tail: it is "-" exactly for a missing or empty value,
   * it never shows more than four characters of the value, and two values that end in the
   * same four characters mask the same.
   */
  lemma MaskHidesPrefix(a: string, b: string)
    requires |a| >= 4 && |b| >= 4 && a[|a| - 4..] == b[|b| - 4..]
    ensures MaskValue(Some(a)) == MaskValue(Some(b))
    ensures |MaskValue(Some(a))| == 10
  {
    var ma := MaskValue(Some(a));
    var mb := MaskValue(Some(b));
    assert ma == ma[..6] + ma[6..];
    assert mb == mb[..6] + mb[6..];
  }

  lemma MaskDashIffMissing(v: Option<string>)
    ensures MaskValue(v) == "-" <==> !Present(v)
    ensures |MaskValue(v)| <= 10
  {
    if Present(v) {
      assert |MaskValue(v)| >= 7;
    }
  }

  /**
   * The chat id column of the list: in master mode the value itself (or "-"), otherwise
   * its mask.
   */
  function ChatIdDisplay(isMaster: bool, chatId: Option<string>): (r: string)
    ensures isMaster && Present(chatId) ==> r == chatId.value
    ensures isMaster && !Present(chatId) ==> r == "-"
    ensures !isMaster ==> r == MaskValue(chatId)
  {
    if isMaster then (if Present(chatId) then chatId.value else "-") else MaskValue(chatId)
  }

  /** Outside master mode a chat id of five characters or more is never shown in full. */
  lemma ChatIdHiddenOutsideMaster(chatId: string)
    requires |chatId| > 4
    ensures ChatIdDisplay(false, Some(chatId)) != chatId || (|chatId| == 10 && chatId[..6] == Bullets)
    ensures ChatIdDisplay(true, Some(chatId)) == chatId
  {
    var r := ChatIdDisplay(false, Some(chatId));
    if r == chatId {
      assert chatId[..6] == r[..6];
    }
  }

  /** `handleSave`'s guard: a draft is saved only when it exists and has a non-empty name. */
  predicate CanSave(editing: Option<StaffDraft>) {
    editing.Some? && Present(editing.value.name)
  }

  /** A fresh draft cannot be saved until a name is typed, and any non-empty name unlocks it. */
  lemma CanSaveNamed(d: StaffDraft, name: string)
    ensures !CanSave(Some(EmptyStaff))
    ensures CanSave(Some(d.(name := Some(name)))) <==> name != ""
    ensures !CanSave(None)
  {
  }

  const MasterOnToast := Toast("마스터 모드 활성화", None, false)
  const AuthFailedToast := Toast("인증 실패", None, true)
  const NameRequiredToast := Toast("이름은 필수입니다", None, true)
  const SavedToast := Toast("저장 완료", None, false)

  function SaveErrorToast(message: string): Toast {
    Toast("오류", Some(message), true)
  }

  class StaffPage {
    var editing: Option<StaffDraft>
    var isMaster: bool
    var showPw: bool
    var pw: string

    constructor()
      ensures editing == None && !isMaster && !showPw && pw == ""
    {
      editing := None;
      isMaster := false;
      showPw := false;
      pw := "";
    }

    /** The faint button outside master mode reveals the password prompt. */
    method OpenPrompt()
      modifies this
      ensures showPw
      ensures isMaster == old(isMaster) && pw == old(pw) && editing == old(editing)
    {
      showPw := true;
    }

    method TypePassword(value: string)
      modifies this
      ensures pw == value
      ensures isMaster == old(isMaster) && showPw == old(showPw) && editing == old(editing)
    {
      pw := value;
    }

    /** The cancel button hides the prompt and forgets what was typed. */
    method CancelPrompt()
      modifies this
      ensures !showPw && pw == ""
      ensures isMaster == old(isMaster) && editing == old(editing)
    {
      showPw := false;
      pw := "";
    }

    /**
     * `handleMasterLogin`: the right password turns master mode on, hides the prompt and
     * clears the field; a wrong one only raises the failure toast.
     */
    method MasterLogin() returns (toast: Toast)
      modifies this
      ensures old(pw) == MasterPassword ==> isMaster && !showPw && pw == "" && toast == MasterOnToast
      ensures old(pw) != MasterPassword ==>
                isMaster == old(isMaster) && showPw == old(showPw) && pw == old(pw) && toast == AuthFailedToast
      ensures editing == old(editing)
    {
      if pw == MasterPassword {
        isMaster := true;
        showPw := false;
        pw := "";
        toast := MasterOnToast;
      } else {
        toast := AuthFailedToast;
      }
    }

    /** The "일반 모드" button leaves master mode. */
    method LeaveMaster()
      modifies this
      ensures !isMaster
      ensures showPw == old(showPw) && pw == old(pw) && editing == old(editing)
    {
      isMaster := false;
    }

    /** "+ 담당자 추가" opens the dialog on a copy of `EMPTY_STAFF`. */
    method NewDraft()
      modifies this
      ensures editing == Some(EmptyStaff)
      ensures isMaster == old(isMaster) && showPw == old(showPw) && pw == old(pw)
    {
      editing := Some(EmptyStaff);
    }

    /** "편집" opens the dialog on a copy of an existing member. */
    method EditExisting(s: StaffDraft)
      modifies this
      ensures editing == Some(s)
      ensures isMaster == old(isMaster) && showPw == old(showPw) && pw == old(pw)
    {
      editing := Some(s);
    }

    /** Closing the dialog drops the draft. */
    method CloseDialog()
      modifies this
      ensures editing == None
      ensures isMaster == old(isMaster) && showPw == old(showPw) && pw == old(pw)
    {
      editing := None;
    }

    /** The name input of the open dialog. */
    method EditName(value: string)
      modifies this
      ensures old(editing).Some? ==> editing == Some(old(editing).value.(name := Some(value)))
      ensures old(editing).None? ==> editing == None
      ensures isMaster == old(isMaster) && showPw == old(showPw) && pw == old(pw)
    {
      if editing.Some? {
        editing := Some(editing.value.(name := Some(value)));
      }
    }

    /**
     * The Telegram inputs of the dialog, which exist only in master mode: outside it the
     * draft's credentials cannot change.
     */
    method EditTelegram(token: string, chatId: string)
      modifies this
      ensures old(editing).Some? && isMaster ==>
                editing == Some(old(editing).value.(telegram_token := Some(token), telegram_chat_id := Some(chatId)))
      ensures old(editing).None? || !isMaster ==> editing == old(editing)
      ensures isMaster == old(isMaster) && showPw == old(showPw) && pw == old(pw)
    {
      if editing.Some? && isMaster {
        editing := Some(editing.value.(telegram_token := Some(token), telegram_chat_id := Some(chatId)));
      }
    }

    /**
     * The first half of `handleSave`: without a named draft it only raises the warning;
     * otherwise it hands the draft to the save call.
     */
    method BeginSave() returns (save: Option<StaffDraft>, toast: Option<Toast>)
      ensures CanSave(editing) <==> save.Some?
      ensures save.Some? ==> save == editing && toast == None
      ensures save.None? ==> toast == Some(NameRequiredToast)
    {
      if editing.None? || !Present(editing.value.name) {
        return None, Some(NameRequiredToast);
      }
      return editing, None;
    }

    /** The save call settled with `error` (None on success): success closes the dialog. */
    method CompleteSave(error: Option<string>) returns (toast: Toast)
      modifies this
      ensures error.None? ==> editing == None && toast == SavedToast
      ensures error.Some? ==> editing == old(editing) && toast == SaveErrorToast(error.value)
      ensures isMaster == old(isMaster) && showPw == old(showPw) && pw == old(pw)
    {
      if error.None? {
        editing := None;
        toast := SavedToast;
      } else {
        toast := SaveErrorToast(error.value);
      }
    }
  }
}
