/**
 * The browser admin panel: an access check on the decoded session token and a list of client
 * accounts kept in browser storage, with add, remove, password generation and credential copying.
 */
module AdminPanel {
  import opened Wrappers
  import opened Strings
  import opened Seqs
  import Passwords

  const AdminEmail := "ray@twopelicans.ai"
  const DemoEmail := "demo@client.com"
  /** The storage key of the client list. */
  const ClientsKey := "portalClients"
  /** The generator's alphabet: no `I`, `O`, `i`, `l`, `o`, `0` or `1`. */
  const PanelAlphabet := "ABCDEFGHJKLMNPQRSTUVWXYZabcdefghjkmnpqrstuvwxyz23456789!@#"

  /** A client account; `createdAt` is the creation time as an ordered value. */
  datatype ClientAccount = ClientAccount(
    email: string, password: string, company: string, createdAt: int, lastLogin: Option<int>)

  datatype NewClient = NewClient(email: string, company: string, password: string)

  const BlankClient := NewClient("", "", "")

  /** The session token: missing, not decodable, or decoded to an e-mail address. */
  datatype Token = NoToken | Undecodable | Decoded(email: string)

  /** Where the page sends the browser instead of showing the panel, if anywhere. */
  function AccessRedirect(t: Token): (r: Option<string>)
    ensures r.None? <==> t == Decoded(AdminEmail)
    ensures t.Decoded? && t.email != AdminEmail ==> r == Some("/portal/dashboard")
    ensures !t.Decoded? ==> r == Some("/portal")
  {
    match t
    case NoToken => Some("/portal")
    case Undecodable => Some("/portal")
    case Decoded(email) => if email == AdminEmail then None else Some("/portal/dashboard")
  }

  /** The demo account seeded into empty storage. */
  function DemoAccount(now: int): ClientAccount {
    ClientAccount(DemoEmail, "demo2024", "Demo Corp", now, None)
  }

  /** The filter test of a removal: the account is not registered under `email`. */
  function Keeps(email: string): ClientAccount -> bool {
    (c: ClientAccount) => c.email != email
  }

  /** The list without the accounts registered under `email`. */
  function Without(clients: seq<ClientAccount>, email: string): (r: seq<ClientAccount>)
    ensures forall k :: 0 <= k < |r| ==> r[k] in clients && r[k].email != email
    ensures forall k :: 0 <= k < |clients| && clients[k].email != email ==> clients[k] in r
  {
    Filter(clients, Keeps(email))
  }

  /** Removing an e-mail no account has keeps the list as it is, order included. */
  lemma RemovingAbsentKeepsList(clients: seq<ClientAccount>, email: string)
    requires forall k :: 0 <= k < |clients| ==> clients[k].email != email
    ensures Without(clients, email) == clients
  {
    FilterKeepsAll(clients, Keeps(email));
  }

  /** Removal keeps the relative order of the remaining accounts: it distributes over concatenation. */
  lemma RemovalKeepsOrder(a: seq<ClientAccount>, b: seq<ClientAccount>, email: string)
    ensures Without(a + b, email) == Without(a, email) + Without(b, email)
  {
    FilterAppend(a, b, Keeps(email));
  }

  /** Adding an account under a new e-mail and then removing that e-mail gives the old list back. */
  lemma RemoveUndoesAdd(clients: seq<ClientAccount>, added: ClientAccount)
    requires forall k :: 0 <= k < |clients| ==> clients[k].email != added.email
    ensures Without(clients + [added], added.email) == clients
  {
    RemovalKeepsOrder(clients, [added], added.email);
    RemovingAbsentKeepsList(clients, added.email);
    assert Without([added], added.email) == [];
  }

  /** Only accounts other than the demo account are offered a remove action. */
  predicate CanRemove(c: ClientAccount) {
    c.email != DemoEmail
  }

  /** Removing through an offered action never drops the demo account. */
  lemma DemoSurvivesOfferedRemoval(clients: seq<ClientAccount>, target: ClientAccount)
    requires CanRemove(target)
    ensures forall k :: 0 <= k < |clients| && clients[k].email == DemoEmail ==> clients[k] in Without(clients, target.email)
  {
  }

  /** The lines of the credentials template. */
  function TitleLine(company: string): string { "Portal Access for " + company + "\n" }
  function PortalLine(): string { "\nURL: https://twopelicans.ai/portal" }
  function EmailLine(email: string): string { "\nEmail: " + email }
  function PasswordLines(password: string): string { "\nPassword: " + password + "\n\nPlease keep these credentials secure." }

  /** A four-part text starts with its first part, contains its third and ends with its last. */
  lemma FourParts(a: string, b: string, c: string, d: string)
    ensures StartsWith(a + b + c + d, a)
    ensures Contains(a + b + c + d, c)
    ensures EndsWith(a + b + c + d, d)
  {
    assert a + b + c + d == a + (b + c + d);
    PrefixOfConcat(a, b + c + d);
    InfixOfConcat(a + b, c, d);
    SuffixOfConcat(a + b + c, d);
  }

  /** The text copied for a client: a fixed template around company, e-mail and password. */
  function CredentialsText(c: ClientAccount): (r: string)
    ensures StartsWith(r, TitleLine(c.company))
    ensures Contains(r, EmailLine(c.email))
    ensures EndsWith(r, PasswordLines(c.password))
  {
    var title, link, mail, tail := TitleLine(c.company), PortalLine(), EmailLine(c.email), PasswordLines(c.password);
    FourParts(title, link, mail, tail);
    title + link + mail + tail
  }

  class Panel {
    var isAdmin: bool
    var clients: seq<ClientAccount>
    var showAddClient: bool
    var copied: Option<string>
    var newClient: NewClient
    /** Browser storage; the JSON text of the stored list is modelled by the list itself. */
    var storage: map<string, seq<ClientAccount>>
    /** Every text written to the clipboard, in order. */
    var clipboard: seq<string>

    constructor(storage0: map<string, seq<ClientAccount>>)
      ensures !isAdmin && clients == [] && !showAddClient && copied == None && newClient == BlankClient
      ensures storage == storage0 && clipboard == []
    {
      isAdmin := false;
      clients := [];
      showAddClient := false;
      copied := None;
      newClient := BlankClient;
      storage := storage0;
      clipboard := [];
    }

    /** The page's start-up effect: only the admin e-mail gets the panel, and then the list is loaded. */
    method Mount(t: Token, now: int) returns (redirect: Option<string>)
      modifies this
      ensures redirect == AccessRedirect(t)
      ensures redirect.None? ==> isAdmin
      ensures redirect.None? && ClientsKey in old(storage) ==> clients == old(storage)[ClientsKey] && storage == old(storage)
      ensures redirect.None? && ClientsKey !in old(storage) ==>
                clients == [DemoAccount(now)] && storage == old(storage)[ClientsKey := clients]
      ensures redirect.Some? ==> isAdmin == old(isAdmin) && clients == old(clients) && storage == old(storage)
      ensures showAddClient == old(showAddClient) && copied == old(copied) && newClient == old(newClient)
      ensures clipboard == old(clipboard)
    {
      redirect := AccessRedirect(t);
      if redirect.None? {
        isAdmin := true;
        LoadClients(now);
      }
    }

    /** Stored accounts are shown as stored; with nothing stored, the demo account is seeded and persisted. */
    method LoadClients(now: int)
      modifies this
      ensures ClientsKey in old(storage) ==> clients == old(storage)[ClientsKey] && storage == old(storage)
      ensures ClientsKey !in old(storage) ==>
                clients == [DemoAccount(now)] && storage == old(storage)[ClientsKey := clients]
      ensures isAdmin == old(isAdmin) && showAddClient == old(showAddClient) && copied == old(copied)
      ensures newClient == old(newClient) && clipboard == old(clipboard)
    {
      if ClientsKey in storage {
        clients := storage[ClientsKey];
      } else {
        var initial := [DemoAccount(now)];
        storage := storage[ClientsKey := initial];
        clients := initial;
      }
    }

    /** Fills the form's password with 12 characters from the alphabet; e-mail and company stay. */
    method GeneratePassword()
      modifies this
      ensures newClient.email == old(newClient.email) && newClient.company == old(newClient.company)
      ensures |newClient.password| == 12
      ensures forall k :: 0 <= k < 12 ==> newClient.password[k] in PanelAlphabet
      ensures clients == old(clients) && storage == old(storage) && isAdmin == old(isAdmin)
      ensures showAddClient == old(showAddClient) && copied == old(copied) && clipboard == old(clipboard)
    {
      var password := Passwords.Draw(PanelAlphabet, 12);
      newClient := newClient.(password := password);
    }

    /**
     * With every form field filled, the account is appended at the end, the list persisted and the
     * form reset; with any field empty nothing changes (the page only alerts).
     */
    method AddClient(now: int)
      modifies this
      ensures old(newClient.email == "" || newClient.company == "" || newClient.password == "") ==>
                && clients == old(clients) && storage == old(storage) && newClient == old(newClient)
                && showAddClient == old(showAddClient)
      ensures old(newClient.email != "" && newClient.company != "" && newClient.password != "") ==>
                && clients == old(clients) + [ClientAccount(old(newClient.email), old(newClient.password),
                                                            old(newClient.company), now, None)]
                && storage == old(storage)[ClientsKey := clients]
                && newClient == BlankClient && !showAddClient
      ensures isAdmin == old(isAdmin) && copied == old(copied) && clipboard == old(clipboard)
    {
      if newClient.email == "" || newClient.company == "" || newClient.password == "" {
        return;
      }
      var account := ClientAccount(newClient.email, newClient.password, newClient.company, now, None);
      var updated := clients + [account];
      clients := updated;
      storage := storage[ClientsKey := updated];
      newClient := BlankClient;
      showAddClient := false;
    }

    /** A confirmed removal drops every account under `email` and persists; an unconfirmed one changes nothing. */
    method RemoveClient(email: string, confirmed: bool)
      modifies this
      ensures confirmed ==> clients == Without(old(clients), email) && storage == old(storage)[ClientsKey := clients]
      ensures !confirmed ==> clients == old(clients) && storage == old(storage)
      ensures isAdmin == old(isAdmin) && showAddClient == old(showAddClient) && copied == old(copied)
      ensures newClient == old(newClient) && clipboard == old(clipboard)
    {
      if confirmed {
        var updated := Without(clients, email);
        clients := updated;
        storage := storage[ClientsKey := updated];
      }
    }

    /** Writes the account's credentials to the clipboard and marks it as copied. */
    method CopyCredentials(c: ClientAccount)
      modifies this
      ensures clipboard == old(clipboard) + [CredentialsText(c)] && copied == Some(c.email)
      ensures clients == old(clients) && storage == old(storage) && isAdmin == old(isAdmin)
      ensures showAddClient == old(showAddClient) && newClient == old(newClient)
    {
      clipboard := clipboard + [CredentialsText(c)];
      copied := Some(c.email);
    }
  }
}
