/** User creation (src/mapping-helpers/user.ts). */
module UserHelpers {
  import opened Contracts
  import opened Schema
  import opened EntityStore

  /** The user `createUser` builds: keyed by its address, created and last seen at the block. */
  function NewUser(address: Address, blockNumber: Block): (u: User)
    ensures u.id == address
    ensures u.creationBlockNumber == blockNumber && u.lastBlockNumber == blockNumber
  {
    User(address, blockNumber, blockNumber)
  }

  /** The store after `createUser`: the new user saved under its id, replacing any previous one. */
  function CreateUserState(s: StoreState, address: Address, blockNumber: Block): StoreState
  {
    s.(users := s.users[address := NewUser(address, blockNumber)])
  }

  /** `createUser`: builds the user, saves it and returns it. */
  method CreateUser(st: Store, address: Address, blockNumber: Block) returns (user: User)
    modifies st`users
    ensures st.Snapshot() == CreateUserState(old(st.Snapshot()), address, blockNumber)
    ensures user == NewUser(address, blockNumber) && address in st.users && st.users[address] == user
  {
    user := User(address, blockNumber, blockNumber);
    st.users := st.users[address := user];
  }

  /** Only the user under `address` changes; every other key and every other entity is kept. */
  lemma CreateUserFrame(s: StoreState, address: Address, blockNumber: Block)
    ensures
      var r := CreateUserState(s, address, blockNumber);
      && r.(users := s.users) == s
      && r.users.Keys == s.users.Keys + {address}
      && r.users[address] == NewUser(address, blockNumber)
      && (forall k :: k in s.users && k != address ==> r.users[k] == s.users[k])
  {
  }

  lemma CreateUserPreservesValid(s: StoreState, address: Address, blockNumber: Block)
    requires Valid(s)
    ensures Valid(CreateUserState(s, address, blockNumber))
  {
  }
}
