/**
 * The account settings page (app/settings/page.tsx): the account, password,
 * notification and preference forms, each submitted through its own
 * mutation, and the doubly confirmed deletion of the account.
 */
module Settings {
  import opened Wrappers
  import opened Platform
  import opened Auth

  datatype AccountData = AccountData(firstName: string, lastName: string, email: string, phone: string)

  datatype PasswordData = PasswordData(currentPassword: string, newPassword: string, confirmPassword: string)

  const EmptyPasswords := PasswordData("", "", "")

  /** The body of `PUT /auth/change-password`: the confirmation is not sent. */
  datatype PasswordChange = PasswordChange(currentPassword: string, newPassword: string)

  datatype NotificationKey = EmailNotifications | SmsNotifications | ApplicationUpdates | MarketingEmails | DocumentReminders

  const DefaultNotifications: map<NotificationKey, bool> := map[
    EmailNotifications := true, SmsNotifications := false, ApplicationUpdates := true,
    MarketingEmails := false, DocumentReminders := true]

  datatype Preferences = Preferences(language: string, timezone: string, dateFormat: string)

  const DefaultPreferences := Preferences("en", "UTC", "MM/DD/YYYY")

  /** How a mutation settled: rejected with the server's message, or resolved. */
  datatype Reply = Failed(message: Option<string>) | Succeeded

  /** How the account mutation settled; a resolved reply may carry the updated user. */
  datatype AccountReply = AccountFailed(message: Option<string>) | AccountUpdated(user: Option<User>)

  const MinPasswordLength := 8

  /** `handlePasswordSubmit`'s checks, in order: the confirmation first, then the length. */
  function PasswordCheck(p: PasswordData): (error: Option<string>)
    ensures error.None? <==> p.newPassword == p.confirmPassword && |p.newPassword| >= MinPasswordLength
    ensures p.newPassword != p.confirmPassword ==> error == Some("Passwords do not match")
    ensures p.newPassword == p.confirmPassword && |p.newPassword| < MinPasswordLength ==>
              error == Some("Password must be at least 8 characters")
  {
    if p.newPassword != p.confirmPassword then Some("Passwords do not match")
    else if |p.newPassword| < MinPasswordLength then Some("Password must be at least 8 characters")
    else None
  }

  /** The toast of a settled mutation. */
  function Settled(reply: Reply, success: string, fallback: string): Event {
    if reply.Succeeded? then Notify(Success, success, None) else Notify(Error, ErrorToast(reply.message, fallback), None)
  }

  /** The account form starts from the signed-in user, missing parts empty. */
  function AccountDefaults(user: Option<User>): (a: AccountData)
    ensures user.None? ==> a == AccountData("", "", "", "")
    ensures user.Some? ==> a.firstName == user.value.firstName && a.lastName == user.value.lastName
    ensures user.Some? ==> a.email == user.value.email && a.phone == user.value.phone.GetOr("")
  {
    if user.None? then AccountData("", "", "", "")
    else AccountData(user.value.firstName, user.value.lastName, user.value.email, user.value.phone.GetOr(""))
  }

  const FirstQuestion := "Are you sure you want to delete your account? This action cannot be undone."
  const SecondQuestion := "This will permanently delete all your data. Are you absolutely sure?"

  class SettingsPage {
    var accountData: AccountData
    var passwordData: PasswordData
    var notifications: map<NotificationKey, bool>
    var preferences: Preferences
    const auth: AuthProvider
    const browser: Browser

    /** The page shares the session store's browser. */
    predicate Valid() {
      auth.browser == browser
    }

    constructor (auth: AuthProvider)
      ensures Valid() && this.auth == auth
      ensures accountData == AccountDefaults(auth.user) && passwordData == EmptyPasswords
      ensures notifications == DefaultNotifications && preferences == DefaultPreferences
    {
      this.auth := auth;
      browser := auth.browser;
      accountData := AccountDefaults(auth.user);
      passwordData := EmptyPasswords;
      notifications := DefaultNotifications;
      preferences := DefaultPreferences;
    }

    /** `handleAccountSubmit`: the session's user is replaced only when the reply carries one. */
    method HandleAccountSubmit(reply: AccountReply) returns (sent: AccountData)
      requires Valid()
      modifies auth, browser
      ensures sent == accountData
      ensures reply.AccountUpdated? && reply.user.Some? ==>
                && auth.user == reply.user
                && browser.storage == old(browser.storage)[UserKey := Stringify(reply.user.value)]
      ensures !(reply.AccountUpdated? && reply.user.Some?) ==>
                auth.user == old(auth.user) && browser.storage == old(browser.storage)
      ensures reply.AccountUpdated? ==>
                browser.events == old(browser.events) + [Call(Put, "/auth/update-profile"),
                  Notify(Success, "Account updated successfully", None)]
      ensures reply.AccountFailed? ==>
                browser.events == old(browser.events) + [Call(Put, "/auth/update-profile"),
                  Notify(Error, ErrorToast(reply.message, "Failed to update account"), None)]
      ensures auth.loading == old(auth.loading)
    {
      sent := accountData;
      browser.Emit(Call(Put, "/auth/update-profile"));
      match reply
      case AccountUpdated(user) =>
        if user.Some? {
          auth.UpdateUser(user.value);
        }
        browser.Emit(Notify(Success, "Account updated successfully", None));
      case AccountFailed(message) =>
        browser.Emit(Notify(Error, ErrorToast(message, "Failed to update account"), None));
    }

    /**
     * `handlePasswordSubmit`: a failed check shows its message and sends
     * nothing; otherwise the change is sent (`sent`), and a success clears
     * all three inputs.
     */
    method HandlePasswordSubmit(reply: Reply) returns (sent: Option<PasswordChange>)
      modifies this, browser
      ensures PasswordCheck(old(passwordData)).Some? ==>
                && sent == None && passwordData == old(passwordData)
                && browser.events == old(browser.events) + [Notify(Error, PasswordCheck(old(passwordData)).value, None)]
      ensures PasswordCheck(old(passwordData)).None? ==>
                && sent == Some(PasswordChange(old(passwordData).currentPassword, old(passwordData).newPassword))
                && passwordData == (if reply.Succeeded? then EmptyPasswords else old(passwordData))
                && browser.events == old(browser.events) + [Call(Put, "/auth/change-password"),
                     Settled(reply, "Password changed successfully", "Failed to change password")]
      ensures browser.storage == old(browser.storage)
      ensures accountData == old(accountData) && notifications == old(notifications) && preferences == old(preferences)
    {
      var error := PasswordCheck(passwordData);
      if error.Some? {
        browser.Emit(Notify(Error, error.value, None));
        return None;
      }
      sent := Some(PasswordChange(passwordData.currentPassword, passwordData.newPassword));
      browser.Emit(Call(Put, "/auth/change-password"));
      if reply.Succeeded? {
        browser.Emit(Notify(Success, "Password changed successfully", None));
        passwordData := EmptyPasswords;
      } else {
        browser.Emit(Notify(Error, ErrorToast(reply.message, "Failed to change password"), None));
      }
    }

    /** One notification checkbox: only its own setting changes. */
    method ToggleNotification(key: NotificationKey, checked: bool)
      modifies this
      ensures notifications == old(notifications)[key := checked]
      ensures accountData == old(accountData) && passwordData == old(passwordData) && preferences == old(preferences)
    {
      notifications := notifications[key := checked];
    }

    /** `handleNotificationsSubmit`: the settings are sent as they stand. */
    method HandleNotificationsSubmit(reply: Reply) returns (sent: map<NotificationKey, bool>)
      modifies browser
      ensures sent == notifications
      ensures browser.storage == old(browser.storage)
      ensures browser.events == old(browser.events) + [Call(Put, "/settings/notifications"),
                Settled(reply, "Notification settings updated", "Failed to update settings")]
    {
      sent := notifications;
      browser.Emit(Call(Put, "/settings/notifications"));
      browser.Emit(Settled(reply, "Notification settings updated", "Failed to update settings"));
    }

    /** `handlePreferencesSubmit`: the preferences are sent as they stand. */
    method HandlePreferencesSubmit(reply: Reply) returns (sent: Preferences)
      modifies browser
      ensures sent == preferences
      ensures browser.storage == old(browser.storage)
      ensures browser.events == old(browser.events) + [Call(Put, "/settings/preferences"),
                Settled(reply, "Preferences updated successfully", "Failed to update preferences")]
    {
      sent := preferences;
      browser.Emit(Call(Put, "/settings/preferences"));
      browser.Emit(Settled(reply, "Preferences updated successfully", "Failed to update preferences"));
    }

    /**
     * `handleDeleteAccount`, given the answers to the two confirmations. Only
     * two yeses send the request. On success the session is torn down: the
     * push to `/` happens while `logout` awaits its call, so the later push
     * to `/login` from its `finally` is the last navigation.
     */
    method HandleDeleteAccount(first: bool, second: bool, reply: Reply)
      requires Valid()
      modifies auth, browser
      ensures !first ==>
                browser.events == old(browser.events) + [Ask(FirstQuestion)]
      ensures first && !second ==>
                browser.events == old(browser.events) + [Ask(FirstQuestion), Ask(SecondQuestion)]
      ensures !(first && second && reply.Succeeded?) ==>
                browser.storage == old(browser.storage) && auth.user == old(auth.user)
      ensures first && second && reply.Failed? ==>
                browser.events == old(browser.events) + [Ask(FirstQuestion), Ask(SecondQuestion),
                  Call(Delete, "/auth/account"), Notify(Error, ErrorToast(reply.message, "Failed to delete account"), None)]
      ensures first && second && reply.Succeeded? ==>
                && browser.storage == old(browser.storage) - SessionKeys && auth.user == None
                && browser.events == old(browser.events) + [Ask(FirstQuestion), Ask(SecondQuestion),
                     Call(Delete, "/auth/account"), Notify(Success, "Account deleted successfully", None),
                     Call(Post, "/auth/logout"), Navigate("/"), Navigate(LoginPage),
                     Notify(Success, "Logged out successfully", None)]
      ensures auth.loading == old(auth.loading)
    {
      browser.Emit(Ask(FirstQuestion));
      if !first {
        return;
      }
      browser.Emit(Ask(SecondQuestion));
      if !second {
        return;
      }
      browser.Emit(Call(Delete, "/auth/account"));
      if reply.Failed? {
        browser.Emit(Notify(Error, ErrorToast(reply.message, "Failed to delete account"), None));
        return;
      }
      browser.Emit(Notify(Success, "Account deleted successfully", None));
      auth.BeginLogout();
      browser.Emit(Navigate("/"));
      auth.FinishLogout();
    }
  }
}
