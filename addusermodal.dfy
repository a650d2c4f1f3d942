/** The add-contact dialog of modern-chat-app/components/AddUserModal.tsx.
    Its six state variables are the fields of `AddUserModal`. The two
    asynchronous handlers are each split at their `await`: the first half
    returns the request it would send, and the second half takes the
    request's outcome. */
module AddUserModal {
  import opened Common
  import opened Text

  /** The user the search endpoint returns, with the online flag the
      dialog adds. */
  datatype SearchedUser = SearchedUser(id: string, username: string, email: string, image: Option<string>, isOnline: bool)

  /** The lookup's outcome: the user, or a thrown value (`message` is the
      message of an `Error`, None for anything else). */
  datatype SearchResult = Found(id: string, username: string, email: string, image: Option<string>) | SearchFailed(message: Option<string>)

  /** An entry of `existingChats`. */
  datatype ExistingChat = ExistingChat(email: string)

  /** `existingChats.some(chat => chat.email === email)`. */
  function SomeHasEmail(chats: seq<ExistingChat>, email: string): (r: bool)
    ensures r <==> exists i :: 0 <= i < |chats| && chats[i].email == email
  {
    if chats == [] then false
    else chats[0].email == email || SomeHasEmail(chats[1..], email)
  }

  /** isUserAlreadyAdded (AddUserModal.tsx:101): exact, case-sensitive email
      equality, and false when no user has been found. */
  function IsUserAlreadyAdded(searched: Option<SearchedUser>, chats: seq<ExistingChat>): (r: bool)
    ensures r <==> searched.Some? && exists i :: 0 <= i < |chats| && chats[i].email == searched.value.email
  {
    searched.Some? && SomeHasEmail(chats, searched.value.email)
  }

  /** `error instanceof Error ? error.message : fallback`. */
  function ErrorText(message: Option<string>, fallback: string): string {
    if message.Some? then message.value else fallback
  }

  class AddUserModal {
    var searchEmail: string
    var searchedUser: Option<SearchedUser>
    var isSearching: bool
    var isAdding: bool
    var error: string
    var success: string

    /** The initial state, which is also what resetModal restores. */
    ghost predicate IsReset()
      reads this
    {
      searchEmail == "" && searchedUser == None && error == "" && success == "" && !isSearching && !isAdding
    }

    constructor ()
      ensures IsReset()
    {
      searchEmail := "";
      searchedUser := None;
      isSearching := false;
      isAdding := false;
      error := "";
      success := "";
    }

    /** The input's onChange. */
    method SetSearchEmail(value: string)
      modifies this
      ensures searchEmail == value
      ensures searchedUser == old(searchedUser) && isSearching == old(isSearching) && isAdding == old(isAdding)
      ensures error == old(error) && success == old(success)
    {
      searchEmail := value;
    }

    /** handleSearch up to its request (AddUserModal.tsx:37-48): a blank
        email only sets an error; otherwise the trimmed email is looked up. */
    method StartSearch() returns (request: Option<string>)
      modifies this
      ensures searchEmail == old(searchEmail) && isAdding == old(isAdding) && success == old(success)
      ensures Trim(old(searchEmail)) == "" ==>
        && request == None && error == "Please enter an email address"
        && searchedUser == old(searchedUser) && isSearching == old(isSearching)
      ensures Trim(old(searchEmail)) != "" ==>
        request == Some(Trim(old(searchEmail))) && isSearching && error == "" && searchedUser == None
    {
      if Trim(searchEmail) == "" {
        error := "Please enter an email address";
        return None;
      }
      isSearching := true;
      error := "";
      searchedUser := None;
      request := Some(Trim(searchEmail));
    }

    /** handleSearch after its request (AddUserModal.tsx:49-59). */
    method FinishSearch(result: SearchResult, onlineUsers: seq<string>)
      modifies this
      ensures !isSearching
      ensures searchEmail == old(searchEmail) && isAdding == old(isAdding) && success == old(success)
      // a found user is online exactly when its username is among the online users
      ensures result.Found? ==>
        searchedUser == Some(SearchedUser(result.id, result.username, result.email, result.image,
                                          exists i :: 0 <= i < |onlineUsers| && onlineUsers[i] == result.username))
        && error == old(error)
      ensures result.SearchFailed? ==> searchedUser == None && error == ErrorText(result.message, "User not found")
    {
      match result {
        case Found(id, username, email, image) =>
          searchedUser := Some(SearchedUser(id, username, email, image, username in onlineUsers));
        case SearchFailed(message) =>
          error := ErrorText(message, "User not found");
          searchedUser := None;
      }
      isSearching := false;
    }

    /** handleAddUser up to its request (AddUserModal.tsx:62-70): nothing
        happens without a found user; otherwise a room with that user's id
        is requested. */
    method StartAdd() returns (request: Option<string>)
      modifies this
      ensures old(searchedUser).None? ==> request == None && unchanged(this)
      ensures old(searchedUser).Some? ==>
        && request == Some(old(searchedUser).value.id) && isAdding && error == "" && success == ""
        && searchEmail == old(searchEmail) && searchedUser == old(searchedUser) && isSearching == old(isSearching)
    {
      if searchedUser.None? {
        return None;
      }
      isAdding := true;
      error := "";
      success := "";
      request := Some(searchedUser.value.id);
    }

    /** handleAddUser after its request (AddUserModal.tsx:71-82); `added` is
        the user the handler captured. On success the dialog schedules its
        own closing (`scheduleClose`), which `ResetModal` then performs. */
    method FinishAdd(added: SearchedUser, created: bool, message: Option<string>) returns (scheduleClose: bool)
      modifies this
      ensures !isAdding && scheduleClose == created
      ensures searchEmail == old(searchEmail) && searchedUser == old(searchedUser) && isSearching == old(isSearching)
      ensures created ==> success == added.username + " added to your conversations!" && error == old(error)
      ensures !created ==> error == ErrorText(message, "Failed to add user") && success == old(success)
    {
      if created {
        success := added.username + " added to your conversations!";
      } else {
        error := ErrorText(message, "Failed to add user");
      }
      isAdding := false;
      scheduleClose := created;
    }

    /** The add button's `disabled` (AddUserModal.tsx:204). */
    function AddDisabled(existingChats: seq<ExistingChat>): (r: bool)
      reads this
      ensures r <==> isAdding || (searchedUser.Some? && exists i :: 0 <= i < |existingChats| && existingChats[i].email == searchedUser.value.email)
    {
      isAdding || IsUserAlreadyAdded(searchedUser, existingChats)
    }

    /** resetModal (AddUserModal.tsx:85-92). */
    method ResetModal()
      modifies this
      ensures IsReset()
    {
      searchEmail := "";
      searchedUser := None;
      error := "";
      success := "";
      isSearching := false;
      isAdding := false;
    }

    /** handleOpenChange (AddUserModal.tsx:94-99): the parent is told the new
        state, and closing always resets. */
    method HandleOpenChange(open: bool) returns (notified: bool)
      modifies this
      ensures notified == open
      ensures !open ==> IsReset()
      ensures open ==> unchanged(this)
    {
      notified := open;
      if !open {
        ResetModal();
      }
    }
  }
}
