/**
 * Practice/visitor/MessagingVisitorApp.java: four kinds of client, each
 * dispatching a visitor to the visit for its own kind. The insurance
 * visitor only reports; the loan visitor gives each client a random loan
 * below 100000. What is printed becomes the returned list of messages; the
 * random draw is a nondeterministic choice in [0, 100000).
 */
module MessagingVisitor {
  import opened JavaLang

  datatype ClientKind = Bank | Company | Resident | Restaurant

  /** The exclusive upper bound of Random.nextInt(100000). */
  const LOAN_BOUND: int32 := 100000

  class Client {
    const kind: ClientKind
    const name: string
    const address: string
    const phone: string
    var loanAmount: int32

    constructor (kind: ClientKind, name: string, address: string, phone: string)
      ensures this.kind == kind && this.name == name && this.address == address && this.phone == phone
      ensures loanAmount == 0
    {
      this.kind := kind;
      this.name := name;
      this.address := address;
      this.phone := phone;
      loanAmount := 0;
    }

    method SetLoanAmount(amount: int32)
      modifies this
      ensures loanAmount == amount
    {
      loanAmount := amount;
    }
  }

  /** One report: which visitor, for which kind of client and which name; a loan report also has the amount. */
  datatype Message =
    | InsuranceMessage(kind: ClientKind, name: string)
    | LoanMessage(kind: ClientKind, name: string, amount: int32)

  /** The visits of one pass, one per entry of the list, in list order. */
  predicate VisitsInOrder(clients: seq<Client>, messages: seq<Message>)
  {
    |messages| == |clients|
    && forall i :: 0 <= i < |clients| ==> messages[i].kind == clients[i].kind && messages[i].name == clients[i].name
  }

  /** sendInsuranceMessage: visit every client in order, changing no client. */
  method SendInsuranceMessage(clients: seq<Client>) returns (messages: seq<Message>)
    ensures VisitsInOrder(clients, messages)
    ensures forall i :: 0 <= i < |messages| ==> messages[i].InsuranceMessage?
  {
    messages := [];
    var i := 0;
    while i < |clients|
      invariant 0 <= i <= |clients|
      invariant VisitsInOrder(clients[..i], messages)
      invariant forall j :: 0 <= j < |messages| ==> messages[j].InsuranceMessage?
    {
      messages := messages + [InsuranceMessage(clients[i].kind, clients[i].name)];
      i := i + 1;
    }
    assert clients[..i] == clients;
  }

  /** The last entry of the list that is this client. */
  predicate LastOccurrence(clients: seq<Client>, i: int)
    requires 0 <= i < |clients|
  {
    forall j :: i < j < |clients| ==> clients[j] != clients[i]
  }

  /**
   * sendLoanMessage: visit every client in order; each visit sets the
   * client's loan to a fresh draw below 100000 and reports it. A client
   * listed twice keeps its last draw.
   */
  method SendLoanMessage(clients: seq<Client>) returns (messages: seq<Message>)
    modifies set c | c in clients
    ensures VisitsInOrder(clients, messages)
    ensures forall i :: 0 <= i < |messages| ==> messages[i].LoanMessage? && 0 <= messages[i].amount < LOAN_BOUND
    ensures forall i :: 0 <= i < |clients| && LastOccurrence(clients, i) ==> clients[i].loanAmount == messages[i].amount
  {
    messages := [];
    var i := 0;
    while i < |clients|
      invariant 0 <= i <= |clients|
      invariant VisitsInOrder(clients[..i], messages)
      invariant forall j :: 0 <= j < |messages| ==> messages[j].LoanMessage? && 0 <= messages[j].amount < LOAN_BOUND
      invariant forall j :: 0 <= j < i && (forall k :: j < k < i ==> clients[k] != clients[j]) ==>
        clients[j].loanAmount == messages[j].amount
    {
      var amount: int32 :| 0 <= amount < LOAN_BOUND;
      clients[i].SetLoanAmount(amount);
      messages := messages + [LoanMessage(clients[i].kind, clients[i].name, amount)];
      i := i + 1;
    }
    assert clients[..i] == clients;
  }

  /** After a loan pass every listed client's loan is below 100000 and not negative. */
  lemma LoansInRange(clients: seq<Client>, messages: seq<Message>, c: Client)
    requires VisitsInOrder(clients, messages)
    requires forall i :: 0 <= i < |messages| ==> messages[i].LoanMessage? && 0 <= messages[i].amount < LOAN_BOUND
    requires forall i :: 0 <= i < |clients| && LastOccurrence(clients, i) ==> clients[i].loanAmount == messages[i].amount
    requires c in clients
    ensures 0 <= c.loanAmount < LOAN_BOUND
  {
    var i :| 0 <= i < |clients| && clients[i] == c;
    while !LastOccurrence(clients, i)
      invariant 0 <= i < |clients| && clients[i] == c
      decreases |clients| - i
    {
      var j :| i < j < |clients| && clients[j] == clients[i];
      i := j;
    }
  }

  /**
   * The program's run: the insurance pass leaves every loan at 0; the loan
   * pass then gives each of the four clients a loan in range.
   */
  method VisitorApp() returns (clients: seq<Client>)
    ensures |clients| == 4
    ensures forall c :: c in clients ==> 0 <= c.loanAmount < LOAN_BOUND
  {
    var bank := new Client(Bank, "Bank1", "Address1", "Phone1");
    var company := new Client(Company, "Company1", "Address2", "Phone2");
    var resident := new Client(Resident, "Resident1", "Address3", "Phone3");
    var restaurant := new Client(Restaurant, "Restaurant1", "Address4", "Phone4");
    clients := [bank, company, resident, restaurant];
    var _ := SendInsuranceMessage(clients);
    assert bank.loanAmount == 0;
    var loans := SendLoanMessage(clients);
    forall c | c in clients
      ensures 0 <= c.loanAmount < LOAN_BOUND
    {
      LoansInRange(clients, loans, c);
    }
  }
}
